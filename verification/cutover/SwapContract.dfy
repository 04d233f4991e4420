// What the cutover scripts use of the entitlement swap contract and of the MCGP token
// (smart-contracts/contracts/McgpEntitlementSwapV2.sol).
module SwapContract {
  import opened Common
  import opened Totals

  // One holder's import: what migratePremium is given.
  datatype Row = Row(user: Addr, bought: nat, credited: nat)

  function Amount(r: Row): nat { r.bought + r.credited }

  function RowsTotal(rows: seq<Row>): nat {
    if rows == [] then 0 else RowsTotal(rows[..|rows| - 1]) + Amount(rows[|rows| - 1])
  }

  function Users(rows: seq<Row>): (us: set<Addr>) { set r <- rows :: r.user }

  // The entitlement ledger of one swap.
  datatype Ledger = Ledger(bought: map<Addr, nat>, credited: map<Addr, nat>, pending: map<Addr, nat>,
                           migrated: set<Addr>, accounted: nat, closed: bool)

  // accountedMcgp is the sum of everything owed.
  ghost predicate Accounts(l: Ledger) {
    l.accounted == Total(l.bought) + Total(l.credited) + Total(l.pending)
  }

  function ImportRow(l: Ledger, r: Row): Ledger {
    l.(bought := l.bought[r.user := At(l.bought, r.user) + r.bought],
       credited := l.credited[r.user := At(l.credited, r.user) + r.credited],
       migrated := l.migrated + {r.user}, accounted := l.accounted + Amount(r))
  }

  function Imported(l: Ledger, rows: seq<Row>): Ledger {
    if rows == [] then l else ImportRow(Imported(l, rows[..|rows| - 1]), rows[|rows| - 1])
  }

  predicate RowOk(l: Ledger, r: Row) { r.user != 0 && r.user !in l.migrated && Amount(r) > 0 }

  // Every row passes its own checks at the point it is reached.
  predicate RowsOk(l: Ledger, rows: seq<Row>) {
    rows == [] || (RowsOk(l, rows[..|rows| - 1]) && RowOk(Imported(l, rows[..|rows| - 1]), rows[|rows| - 1]))
  }

  lemma ImportRowAccounts(l: Ledger, r: Row)
    requires Accounts(l)
    ensures Accounts(ImportRow(l, r))
  {
    hide Total;
    TotalUpdate(l.bought, r.user, At(l.bought, r.user) + r.bought);
    TotalUpdate(l.credited, r.user, At(l.credited, r.user) + r.credited);
  }

  lemma {:induction false} ImportedAccounts(l: Ledger, rows: seq<Row>)
    requires Accounts(l)
    ensures Accounts(Imported(l, rows))
  {
    hide Accounts, ImportRow;
    if rows != [] {
      ImportedAccounts(l, rows[..|rows| - 1]);
      ImportRowAccounts(Imported(l, rows[..|rows| - 1]), rows[|rows| - 1]);
    }
  }

  lemma {:induction false} ImportedTotals(l: Ledger, rows: seq<Row>)
    ensures Imported(l, rows).accounted == l.accounted + RowsTotal(rows)
    ensures Imported(l, rows).migrated == l.migrated + Users(rows)
    ensures Imported(l, rows).closed == l.closed && Imported(l, rows).pending == l.pending
  {
    if rows != [] {
      ImportedTotals(l, rows[..|rows| - 1]);
      assert rows == rows[..|rows| - 1] + [rows[|rows| - 1]];
    }
  }

  lemma {:induction false} ImportedSplit(l: Ledger, a: seq<Row>, b: seq<Row>)
    ensures Imported(l, a + b) == Imported(Imported(l, a), b)
    ensures RowsTotal(a + b) == RowsTotal(a) + RowsTotal(b)
    ensures RowsOk(l, a + b) <==> RowsOk(l, a) && RowsOk(Imported(l, a), b)
  {
    if b == [] {
      assert a + b == a;
    } else {
      var n := |b| - 1;
      ImportedSplit(l, a, b[..n]);
      assert (a + b)[..|a + b| - 1] == a + b[..n];
    }
  }

  // The MCGP token: balances and allowances, nothing minted or burnt.
  class Token {
    var balance: map<Addr, nat>
    var allowance: map<(Addr, Addr), nat>

    ghost function Supply(): nat
      reads this
    {
      Total(balance)
    }

    constructor (balance: map<Addr, nat>)
      ensures this.balance == balance && allowance == map[]
    {
      this.balance, allowance := balance, map[];
    }

    method Approve(owner: Addr, spender: Addr, amount: nat)
      modifies this`allowance
      ensures allowance == old(allowance)[(owner, spender) := amount]
    {
      allowance := allowance[(owner, spender) := amount];
    }

    method Transfer(src: Addr, dst: Addr, amount: nat) returns (ok: bool)
      modifies this`balance
      ensures ok <==> old(At(balance, src)) >= amount
      ensures !ok ==> balance == old(balance)
      ensures ok && src != dst ==>
                At(balance, src) == old(At(balance, src)) - amount && At(balance, dst) == old(At(balance, dst)) + amount
      ensures ok && src == dst ==> At(balance, src) == old(At(balance, src))
      ensures forall a: Addr :: a != src && a != dst ==> At(balance, a) == old(At(balance, a))
      ensures Supply() == old(Supply())
    {
      if At(balance, src) < amount { return false; }
      var mid := balance[src := At(balance, src) - amount];
      TotalUpdate(balance, src, At(balance, src) - amount);
      TotalUpdate(mid, dst, At(mid, dst) + amount);
      balance := mid[dst := At(mid, dst) + amount];
      ok := true;
    }
  }

  // A holder's withdrawal of bought premium: the one exit a pause does not close.
  datatype Exit = Exit(user: Addr, amount: nat)

  class Swap {
    const self: Addr
    const token: Token
    const owner: Addr
    var ledger: Ledger
    var paused: bool

    ghost predicate Valid()
      reads this, token
    {
      Accounts(ledger) && At(token.balance, self) >= ledger.accounted
    }

    function Held(): nat
      reads token
    {
      At(token.balance, self)
    }

    constructor (self: Addr, token: Token, owner: Addr)
      ensures this.self == self && this.token == token && this.owner == owner && Valid() && !paused
      ensures ledger == Ledger(map[], map[], map[], {}, 0, false)
    {
      this.self, this.token, this.owner, paused := self, token, owner, false;
      ledger := Ledger(map[], map[], map[], {}, 0, false);
    }

    method Pause(sender: Addr) returns (ok: bool)
      modifies this`paused
      ensures ok <==> sender == owner && !old(paused)
      ensures paused == (old(paused) || ok)
    {
      ok := sender == owner && !paused;
      if ok { paused := true; }
    }

    // Owner-only, and only the excess over everything owed; not pause-gated.
    method Withdraw(sender: Addr, to: Addr, amount: nat) returns (ok: bool)
      requires Valid() && to != self
      modifies token`balance
      ensures Valid() && token.Supply() == old(token.Supply())
      ensures ok <==> sender == owner && to != 0 && amount > 0 && amount + ledger.accounted <= old(Held())
      ensures !ok ==> token.balance == old(token.balance)
      ensures ok ==> Held() == old(Held()) - amount && At(token.balance, to) == old(At(token.balance, to)) + amount
      ensures forall a: Addr :: a != self && a != to ==> At(token.balance, a) == old(At(token.balance, a))
    {
      if sender != owner || to == 0 || amount == 0 || amount + ledger.accounted > Held() { return false; }
      ok := token.Transfer(self, to, amount);
    }

    method Fund(sender: Addr, amount: nat) returns (ok: bool)
      requires Valid() && sender != self
      modifies token
      ensures Valid() && token.Supply() == old(token.Supply())
      ensures ok <==> sender == owner && amount > 0 && old((sender, self) in token.allowance) &&
                      old(token.allowance[(sender, self)]) >= amount && old(At(token.balance, sender)) >= amount
      ensures !ok ==> token.balance == old(token.balance) && token.allowance == old(token.allowance)
      ensures ok ==>
                var key := (sender, self);
                token.allowance == old(token.allowance)[key := old(token.allowance)[key] - amount]
      ensures ok ==> Held() == old(Held()) + amount
      ensures ok ==> At(token.balance, sender) == old(At(token.balance, sender)) - amount
      ensures forall a: Addr :: a != self && a != sender ==> At(token.balance, a) == old(At(token.balance, a))
    {
      var key := (sender, self);
      if sender != owner || amount == 0 || key !in token.allowance || token.allowance[key] < amount ||
         At(token.balance, sender) < amount { return false; }
      token.Approve(sender, self, token.allowance[key] - amount);
      ok := token.Transfer(sender, self, amount);
    }

    method WithdrawPremiumToWallet(e: Exit) returns (ok: bool)
      requires Valid() && e.user != self
      modifies this`ledger, token`balance
      ensures Valid() && token.Supply() == old(token.Supply())
      ensures ok <==> 0 < e.amount <= old(At(ledger.bought, e.user))
      ensures !ok ==> ledger == old(ledger) && token.balance == old(token.balance)
      ensures ok ==> ledger.accounted == old(ledger.accounted) - e.amount && Held() == old(Held()) - e.amount
      ensures ok ==> At(token.balance, e.user) == old(At(token.balance, e.user)) + e.amount
      ensures ok ==>
                var was := old(ledger);
                ledger == was.(bought := was.bought[e.user := At(was.bought, e.user) - e.amount],
                               accounted := was.accounted - e.amount)
      ensures forall a: Addr :: a != self && a != e.user ==> At(token.balance, a) == old(At(token.balance, a))
      ensures Held() <= old(Held())
    {
      var has := At(ledger.bought, e.user);
      if e.amount == 0 || has < e.amount { return false; }
      TotalUpdate(ledger.bought, e.user, has - e.amount);
      ledger := ledger.(bought := ledger.bought[e.user := has - e.amount], accounted := ledger.accounted - e.amount);
      ok := token.Transfer(self, e.user, e.amount);
    }

    // All or nothing: a row refused, or too little MCGP behind the new total, reverts the batch.
    method MigratePremium(sender: Addr, rows: seq<Row>) returns (ok: bool)
      requires Valid()
      modifies this`ledger
      ensures Valid()
      ensures ok <==> sender == owner && !old(ledger).closed && rows != [] && RowsOk(old(ledger), rows) &&
                      old(ledger).accounted + RowsTotal(rows) <= Held()
      ensures ledger == if ok then Imported(old(ledger), rows) else old(ledger)
    {
      if sender != owner || ledger.closed || rows == [] { return false; }
      var next := ledger;
      for i := 0 to |rows|
        invariant next == Imported(ledger, rows[..i]) && RowsOk(ledger, rows[..i])
      {
        assert rows[..i + 1][..i] == rows[..i];
        if !RowOk(next, rows[i]) {
          ImportedSplit(ledger, rows[..i + 1], rows[i + 1..]);
          assert rows[..i + 1] + rows[i + 1..] == rows;
          return false;
        }
        next := ImportRow(next, rows[i]);
      }
      assert rows[..|rows|] == rows;
      ImportedAccounts(ledger, rows);
      ImportedTotals(ledger, rows);
      if next.accounted > Held() { return false; }
      ledger := next;
      ok := true;
    }

    method CloseMigration(sender: Addr) returns (ok: bool)
      requires Valid()
      modifies this`ledger
      ensures Valid()
      ensures ok <==> sender == owner && !old(ledger).closed
      ensures ledger == if ok then old(ledger).(closed := true) else old(ledger)
    {
      ok := sender == owner && !ledger.closed;
      if ok { ledger := ledger.(closed := true); }
    }
  }
}
