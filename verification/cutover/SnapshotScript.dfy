// Taking the snapshot of the old swap's ledger (smart-contracts/scripts/v1-snapshot.js).
module SnapshotScript {
  import opened Common
  import opened Totals
  import opened SwapContract
  import opened Migrate

  const CHUNK: int := 100_000
  const FILTERS: nat := 5

  // ---------------------------------------------------------------- where to start scanning

  // Binary search for the first block with code. For any history of the address it ends, at a block whose
  // predecessor has none; when code stays once it is there, that is the least such block.
  method FindDeploymentBlock(hasCode: nat -> bool, latest: nat) returns (lo: nat)
    ensures lo <= latest && (lo < latest ==> hasCode(lo)) && (lo > 0 ==> !hasCode(lo - 1))
    ensures hasCode(latest) ==> hasCode(lo)
    ensures (forall a: nat, b: nat :: a <= b <= latest && hasCode(a) ==> hasCode(b)) ==>
              forall b: nat :: b < lo ==> !hasCode(b)
  {
    lo := 0;
    var hi := latest;
    while lo < hi
      invariant lo <= hi <= latest && (hi < latest ==> hasCode(hi)) && (lo > 0 ==> !hasCode(lo - 1))
    {
      var mid := (lo + hi) / 2;
      if !hasCode(mid) { lo := mid + 1; } else { hi := mid; }
    }
  }

  // ---------------------------------------------------------------- the scan

  // The windows the scan asks for, newest first.
  function Windows(first: int, last: int): (ws: seq<(int, int)>)
    decreases last - first
  {
    if last < first then []
    else
      var start := if first <= last - CHUNK then last - CHUNK else first;
      [(start, last)] + Windows(first, start - 1)
  }

  ghost predicate OnlyWindow(ws: seq<(int, int)>, b: int, i: int) {
    && 0 <= i < |ws| && ws[i].0 <= b <= ws[i].1
    && (forall j :: 0 <= j < |ws| && ws[j].0 <= b <= ws[j].1 ==> j == i)
  }

  ghost predicate NoWindow(ws: seq<(int, int)>, b: int) {
    forall i :: 0 <= i < |ws| ==> !(ws[i].0 <= b <= ws[i].1)
  }

  // They tile the range: every block is in exactly one of them, and nothing outside is asked for.
  lemma {:induction false} WindowsTile(first: int, last: int, b: int)
    ensures first <= b <= last ==> exists i :: OnlyWindow(Windows(first, last), b, i)
    ensures !(first <= b <= last) ==> NoWindow(Windows(first, last), b)
    decreases last - first
  {
    if first <= last {
      var start := if first <= last - CHUNK then last - CHUNK else first;
      var rest := Windows(first, start - 1);
      WindowsTile(first, start - 1, b);
      assert Windows(first, last) == [(start, last)] + rest;
      if start <= b <= last {
        OneWindowMore(start, last, rest, b, 0);
      } else if first <= b <= last {
        var i :| OnlyWindow(rest, b, i);
        OneWindowMore(start, last, rest, b, i + 1);
      } else {
        assert NoWindow([(start, last)] + rest, b);
      }
    }
  }

  lemma OneWindowMore(start: int, last: int, rest: seq<(int, int)>, b: int, i: int)
    requires if i == 0 then start <= b <= last && NoWindow(rest, b)
        else !(start <= b <= last) && OnlyWindow(rest, b, i - 1)
    ensures OnlyWindow([(start, last)] + rest, b, i)
  {
  }

  // No window is of more than 100,001 blocks.
  lemma {:induction false} WindowsAreSmall(first: int, last: int)
    ensures forall w <- Windows(first, last) :: w.1 <= w.0 + 100_000
    decreases last - first
  {
    if first <= last { WindowsAreSmall(first, (if first <= last - CHUNK then last - CHUNK else first) - 1); }
  }

  // What one query answers: the addresses in its logs, or nothing when it fails.
  datatype Reply = NoReply | Addresses(us: set<Addr>)

  function Named(r: Reply): set<Addr> { if r.NoReply? then {} else r.us }

  ghost predicate NamedIn(query: (nat, int, int) -> Reply, ws: seq<(int, int)>, a: Addr) {
    exists w: (int, int), f: nat :: w in ws && f < 5 && a in Named(query(f, w.0, w.1))
  }

  // Every address any good query of the scan named; a query that fails is passed over.
  method Discover(query: (nat, int, int) -> Reply, first: int, block: int) returns (holders: set<Addr>)
    ensures forall a: Addr :: (a in holders <==> NamedIn(query, Windows(first, block), a))
    // Five kinds of events are asked for in every window.
    ensures forall a: Addr, w: (int, int), f: nat ::
              w in Windows(first, block) && f < 5 && query(f, w.0, w.1).Addresses? && a in query(f, w.0, w.1).us ==>
                a in holders
  {
    holders := {};
    var last := block;
    ghost var done := [];
    while last >= first
      invariant done + Windows(first, last) == Windows(first, block)
      invariant forall a: Addr :: (a in holders <==> NamedIn(query, done, a))
      decreases last - first
    {
      var start := if first <= last - CHUNK then last - CHUNK else first;
      ghost var before := holders;
      for f := 0 to FILTERS
        invariant forall a: Addr :: (a in holders <==>
            (a in before || exists g: nat :: g < f && a in Named(query(g, start, last))))
      {
        holders := holders + Named(query(f, start, last));
      }
      ghost var w, was := (start, last), done;
      done := was + [w];
      forall a ensures a in holders <==> NamedIn(query, done, a) {
        if a in before {
          var w', f: nat :| w' in was && f < FILTERS && a in Named(query(f, w'.0, w'.1));
          assert w' in done;
        } else if a in holders {
          assert w in done;
        }
      }
      last := start - 1;
    }
    assert done == Windows(first, block);
  }

  // ---------------------------------------------------------------- the balances and the completeness check

  function Nonzero(l: Ledger, a: Addr): bool {
    At(l.bought, a) > 0 || At(l.credited, a) > 0 || At(l.pending, a) > 0
  }

  function HolderOf(l: Ledger, a: Addr): Holder {
    Holder(Row(a, At(l.bought, a), At(l.credited, a)), At(l.pending, a))
  }

  // Lists every user with a balance, once, with exactly what they have, and nobody else.
  ghost predicate Lists(l: Ledger, hs: seq<Holder>) {
    && Distinct(Rows(hs))
    && (forall a :: Nonzero(l, a) ==> HolderOf(l, a) in hs)
    && (forall h <- hs :: Nonzero(l, h.row.user) && h == HolderOf(l, h.row.user))
  }

  // A row's user and amounts are read off the ledger; everybody with anything at all is listed.
  lemma ListedMeans(l: Ledger, hs: seq<Holder>, a: Addr)
    requires Lists(l, hs)
    ensures (At(l.bought, a) > 0 || At(l.credited, a) > 0 || At(l.pending, a) > 0) <==>
              Holder(Row(a, At(l.bought, a), At(l.credited, a)), At(l.pending, a)) in hs
    ensures forall i, j :: 0 <= i < j < |hs| ==> hs[i].row.user != hs[j].row.user
    ensures forall h <- hs :: h.row.user == a ==>
              h == Holder(Row(a, At(l.bought, a), At(l.credited, a)), At(l.pending, a))
  {
    forall i, j | 0 <= i < j < |hs| ensures hs[i].row.user != hs[j].row.user {
      assert Rows(hs)[i].user != Rows(hs)[j].user;
    }
    if HolderOf(l, a) in hs { assert Nonzero(l, HolderOf(l, a).row.user); }
  }

  lemma SharesComplete(l: Ledger, s: set<Addr>)
    requires Accounts(l)
    ensures Share(l.bought, s) + Share(l.credited, s) + Share(l.pending, s) == l.accounted <==>
              forall a :: Nonzero(l, a) ==> a in s
  {
    ShareIsTotal(l.bought, s);
    ShareIsTotal(l.credited, s);
    ShareIsTotal(l.pending, s);
    if forall a :: Nonzero(l, a) ==> a in s {
      forall a <- l.bought | a !in s ensures l.bought[a] == 0 { assert !Nonzero(l, a); }
      forall a <- l.credited | a !in s ensures l.credited[a] == 0 { assert !Nonzero(l, a); }
      forall a <- l.pending | a !in s ensures l.pending[a] == 0 { assert !Nonzero(l, a); }
    }
  }

  // What is collected from the users looked at so far.
  ghost predicate Collected(l: Ledger, done: set<Addr>, hs: seq<Holder>) {
    && Distinct(Rows(hs))
    && (forall a <- done :: Nonzero(l, a) ==> HolderOf(l, a) in hs)
    && (forall h <- hs :: h.row.user in done && Nonzero(l, h.row.user) && h == HolderOf(l, h.row.user))
  }

  lemma CollectedMore(l: Ledger, done: set<Addr>, hs: seq<Holder>, a: Addr)
    requires Collected(l, done, hs) && a !in done
    ensures Collected(l, done + {a}, if Nonzero(l, a) then hs + [HolderOf(l, a)] else hs)
  {
    if Nonzero(l, a) {
      var hs' := hs + [HolderOf(l, a)];
      forall i, j | 0 <= i < j < |hs'| ensures Rows(hs')[i].user != Rows(hs')[j].user {
        assert hs'[i] == hs[i] && hs[i] in hs;
        if j < |hs| { assert Rows(hs)[i].user != Rows(hs)[j].user; }
      }
    }
  }

  // The file is written exactly when the scan found everyone with a balance -- whatever queries failed on the
  // way -- and what is written then lists exactly them.
  method TakeSnapshot(v1: Swap, found: set<Addr>) returns (written: bool, snap: Snapshot)
    requires v1.Valid()
    ensures written <==> forall a :: Nonzero(v1.ledger, a) ==> a in found
    ensures written ==> Lists(v1.ledger, snap.holders) && snap.accounted == v1.ledger.accounted
    ensures written ==> snap.accounted == RowsTotal(Rows(snap.holders)) + PendingTotal(snap.holders)
  {
    hide Tallied, HolderOf, Lists, RowsTotal, PendingTotal, Total, Accounts;
    ghost var l := v1.ledger;
    var rest, hs := found, [];
    var bought: nat, credited: nat, pending: nat := 0, 0, 0;
    ghost var done := {};
    NothingTallied(l);
    while rest != {}
      invariant done + rest == found && done !! rest
      invariant Tallied(l, done, hs, bought, credited, pending)
      decreases rest
    {
      var a :| a in rest;
      TalliedMore(l, done, hs, bought, credited, pending, a);
      if Nonzero(v1.ledger, a) {
        bought, credited := bought + At(v1.ledger.bought, a), credited + At(v1.ledger.credited, a);
        pending := pending + At(v1.ledger.pending, a);
        hs := hs + [HolderOf(v1.ledger, a)];
      }
      done, rest := done + {a}, rest - {a};
    }
    assert done == found;
    TalliedAll(l, found, hs, bought, credited, pending);
    snap := Snapshot(hs, v1.ledger.accounted);
    written := bought + credited + pending == v1.ledger.accounted;
  }

  // The running sums over the users looked at so far.
  ghost predicate Tallied(l: Ledger, done: set<Addr>, hs: seq<Holder>, bought: nat, credited: nat, pending: nat) {
    && bought == Share(l.bought, done) && credited == Share(l.credited, done) && pending == Share(l.pending, done)
    && Collected(l, done, hs) && bought + credited == RowsTotal(Rows(hs)) && pending == PendingTotal(hs)
  }

  lemma NothingTallied(l: Ledger)
    ensures Tallied(l, {}, [], 0, 0, 0)
  {
    ZeroShare(l);
  }

  // The sums come to the total exactly when everybody was looked at, and then the rows are the whole ledger.
  lemma TalliedAll(l: Ledger, found: set<Addr>, hs: seq<Holder>, bought: nat, credited: nat, pending: nat)
    requires Accounts(l) && Tallied(l, found, hs, bought, credited, pending)
    ensures bought + credited + pending == l.accounted <==> forall a :: Nonzero(l, a) ==> a in found
    ensures bought + credited + pending == RowsTotal(Rows(hs)) + PendingTotal(hs)
    ensures (forall a :: Nonzero(l, a) ==> a in found) ==> Lists(l, hs)
  {
    hide Total, Share, RowsTotal, PendingTotal, Accounts;
    SharesComplete(l, found);
  }

  lemma TalliedMore(l: Ledger, done: set<Addr>, hs: seq<Holder>, bought: nat, credited: nat, pending: nat, a: Addr)
    requires Tallied(l, done, hs, bought, credited, pending) && a !in done
    ensures Tallied(l, done + {a}, if Nonzero(l, a) then hs + [HolderOf(l, a)] else hs,
                    bought + At(l.bought, a), credited + At(l.credited, a), pending + At(l.pending, a))
  {
    ShareWith(l.bought, done, a);
    ShareWith(l.credited, done, a);
    ShareWith(l.pending, done, a);
    CollectedMore(l, done, hs, a);
    OneHolderMore(hs, HolderOf(l, a));
    hide Share, Collected, RowsTotal, PendingTotal;
  }

  lemma OneHolderMore(hs: seq<Holder>, h: Holder)
    ensures RowsTotal(Rows(hs + [h])) == RowsTotal(Rows(hs)) + Amount(h.row)
    ensures PendingTotal(hs + [h]) == PendingTotal(hs) + h.pendingSettle
  {
    var hs' := hs + [h];
    assert hs'[..|hs|] == hs && Rows(hs')[..|hs|] == Rows(hs);
  }

  lemma ZeroShare(l: Ledger)
    ensures Share(l.bought, {}) == Share(l.credited, {}) == Share(l.pending, {}) == 0
  {
  }

  // A written snapshot with nothing in flight is one the import takes row by row.
  lemma WrittenIsWellFormed(l: Ledger, hs: seq<Holder>)
    requires Lists(l, hs) && PendingTotal(hs) == 0 && !Nonzero(l, 0)
    ensures WellFormed(Rows(hs))
  {
    forall r <- Rows(hs) ensures r.user != 0 && Amount(r) > 0 {
      var i :| 0 <= i < |hs| && hs[i].row == r;
      assert hs[i] in hs;
      NonePending(hs, i);
    }
  }

  lemma {:induction false} NonePending(hs: seq<Holder>, i: nat)
    requires i < |hs|
    ensures hs[i].pendingSettle <= PendingTotal(hs)
  {
    if i < |hs| - 1 { NonePending(hs[..|hs| - 1], i); }
  }
}
