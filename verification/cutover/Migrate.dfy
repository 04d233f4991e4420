// Importing a snapshot into the new swap in batches (smart-contracts/scripts/v2-migrate.js).
module Migrate {
  import opened Common
  import opened Totals
  import opened SwapContract

  datatype Holder = Holder(row: Row, pendingSettle: nat)

  datatype Snapshot = Snapshot(holders: seq<Holder>, accounted: nat)

  datatype Why = Inconsistent | PendingSettle | NotPaused | SourceChanged | NotOwner | AlreadySealed | Underfunded
               | BatchReverted | DeltaMismatch | HolderMismatch | SourceMoved | UnderbackedAfter

  datatype Outcome = Refused(why: Why) | Died | DryRun | Failed(why: Why) | Verified | Sealed

  datatype Options = Options(batch: nat, execute: bool, seal: bool, skipPauseCheck: bool)

  function Rows(hs: seq<Holder>): (rows: seq<Row>) { seq(|hs|, i requires 0 <= i < |hs| => hs[i].row) }

  function PendingTotal(hs: seq<Holder>): nat {
    if hs == [] then 0 else PendingTotal(hs[..|hs| - 1]) + hs[|hs| - 1].pendingSettle
  }

  // The rows not imported yet, in the snapshot's order: what a run sends.
  function Pending(rows: seq<Row>, migrated: set<Addr>): seq<Row> {
    if rows == [] then []
    else
      var before := Pending(rows[..|rows| - 1], migrated);
      if rows[|rows| - 1].user in migrated then before else before + [rows[|rows| - 1]]
  }

  // Rows the contract takes: named users, something to import, nobody twice.
  predicate Distinct(rows: seq<Row>) {
    forall i, j :: 0 <= i < j < |rows| ==> rows[i].user != rows[j].user
  }

  predicate WellFormed(rows: seq<Row>) {
    Distinct(rows) && forall r <- rows :: r.user != 0 && Amount(r) > 0
  }

  // ---------------------------------------------------------------- what is left to import

  lemma {:induction false} PendingIn(rows: seq<Row>, migrated: set<Addr>)
    ensures forall r :: r in Pending(rows, migrated) <==> r in rows && r.user !in migrated
  {
    if rows != [] {
      PendingIn(rows[..|rows| - 1], migrated);
      assert rows == rows[..|rows| - 1] + [rows[|rows| - 1]];
    }
  }

  lemma {:induction false} PendingDistinct(rows: seq<Row>, migrated: set<Addr>)
    requires Distinct(rows)
    ensures Distinct(Pending(rows, migrated))
  {
    if rows != [] {
      var n := |rows| - 1;
      PendingDistinct(rows[..n], migrated);
      PendingIn(rows[..n], migrated);
      forall r | r in Pending(rows[..n], migrated) ensures r.user != rows[n].user {
        var i :| 0 <= i < n && rows[..n][i] == r;
      }
    }
  }

  lemma {:induction false} PendingMore(rows: seq<Row>, migrated: set<Addr>, more: set<Addr>)
    ensures Pending(rows, migrated + more) == Pending(Pending(rows, migrated), more)
  {
    if rows != [] {
      var before := Pending(rows[..|rows| - 1], migrated);
      PendingMore(rows[..|rows| - 1], migrated, more);
      if rows[|rows| - 1].user !in migrated {
        assert Pending(rows, migrated) == before + [rows[|rows| - 1]];
        assert (before + [rows[|rows| - 1]])[..|before|] == before;
      }
    }
  }

  lemma {:induction false} AllMigrated(rows: seq<Row>, migrated: set<Addr>)
    requires forall r <- rows :: r.user in migrated
    ensures Pending(rows, migrated) == []
  {
    if rows != [] { AllMigrated(rows[..|rows| - 1], migrated); }
  }

  lemma {:induction false} PendingDropsPrefix(rows: seq<Row>, k: nat)
    requires Distinct(rows) && k <= |rows|
    ensures Pending(rows, Users(rows[..k])) == rows[k..]
    decreases |rows|
  {
    if rows != [] {
      var n := |rows| - 1;
      if k <= n {
        PendingDropsPrefix(rows[..n], k);
        assert rows[..n][..k] == rows[..k];
        assert rows[n].user !in Users(rows[..k]);
        assert rows[..n][k..] + [rows[n]] == rows[k..];
      } else {
        assert rows[..k] == rows;
        AllMigrated(rows, Users(rows));
      }
    }
  }

  // Once k of the pending rows are in, the rest is what a later run finds pending: resuming repeats nothing and
  // skips nothing.
  lemma ResumeSendsTheRest(rows: seq<Row>, migrated: set<Addr>, k: nat)
    requires Distinct(rows) && k <= |Pending(rows, migrated)|
    ensures var p := Pending(rows, migrated);
            Pending(rows, migrated + Users(p[..k])) == p[k..]
  {
    var p := Pending(rows, migrated);
    PendingMore(rows, migrated, Users(p[..k]));
    PendingDistinct(rows, migrated);
    PendingDropsPrefix(p, k);
  }

  // Rows distinct, named, non-empty and not imported yet pass every check the contract makes on the way.
  lemma {:induction false} FreshRowsOk(l: Ledger, rows: seq<Row>)
    requires WellFormed(rows) && (forall r <- rows :: r.user !in l.migrated)
    ensures RowsOk(l, rows)
  {
    if rows != [] {
      var n := |rows| - 1;
      FreshRowsOk(l, rows[..n]);
      ImportedTotals(l, rows[..n]);
      forall r <- rows[..n] ensures r.user != rows[n].user { var i :| 0 <= i < n && rows[..n][i] == r; }
    }
  }

  // What importing rows adds to each user: nothing, or the one row naming them.
  lemma {:induction false} ImportedElsewhere(l: Ledger, rows: seq<Row>, a: Addr)
    requires forall r <- rows :: r.user != a
    ensures At(Imported(l, rows).bought, a) == At(l.bought, a) && At(Imported(l, rows).credited, a) == At(l.credited, a)
  {
    if rows != [] { ImportedElsewhere(l, rows[..|rows| - 1], a); }
  }

  lemma {:induction false} ImportedAt(l: Ledger, rows: seq<Row>, i: nat)
    requires Distinct(rows) && i < |rows|
    ensures var l', r := Imported(l, rows), rows[i];
            At(l'.bought, r.user) == At(l.bought, r.user) + r.bought &&
            At(l'.credited, r.user) == At(l.credited, r.user) + r.credited
  {
    var n := |rows| - 1;
    if i == n {
      forall r <- rows[..n] ensures r.user != rows[n].user { var j :| 0 <= j < n && rows[..n][j] == r; }
      ImportedElsewhere(l, rows[..n], rows[n].user);
    } else {
      ImportedAt(l, rows[..n], i);
      assert rows[..n][i] == rows[i];
    }
  }

  // ---------------------------------------------------------------- any number of crashing runs

  // Between runs the new swap may be used: balances move, but only an import marks anyone migrated.
  datatype Life =
    | RunOf(sent: nat)
    | Used(bought: map<Addr, nat>, credited: map<Addr, nat>, pending: map<Addr, nat>, accounted: nat)

  ghost predicate CanHappen(l: Ledger, rows: seq<Row>, e: Life) {
    e.RunOf? ==> e.sent <= |Pending(rows, l.migrated)|
  }

  ghost function After(l: Ledger, rows: seq<Row>, e: Life): Ledger
    requires CanHappen(l, rows, e)
  {
    match e
    case RunOf(k) => Imported(l, Pending(rows, l.migrated)[..k])
    case Used(b, c, p, n) => l.(bought := b, credited := c, pending := p, accounted := n)
  }

  ghost function SentBy(l: Ledger, rows: seq<Row>, e: Life): seq<Row>
    requires CanHappen(l, rows, e)
  {
    if e.RunOf? then Pending(rows, l.migrated)[..e.sent] else []
  }

  ghost predicate History(ls: seq<Ledger>, rows: seq<Row>, es: seq<Life>) {
    |ls| == |es| + 1 &&
    forall n :: 0 <= n < |es| ==> CanHappen(ls[n], rows, es[n]) && ls[n + 1] == After(ls[n], rows, es[n])
  }

  ghost function AllSent(ls: seq<Ledger>, rows: seq<Row>, es: seq<Life>): seq<Row>
    requires History(ls, rows, es)
    decreases |es|
  {
    if es == [] then []
    else
      var n := |es| - 1;
      AllSent(ls[..n + 1], rows, es[..n]) + SentBy(ls[n], rows, es[n])
  }

  lemma PrefixGrows(all: seq<Row>, was: seq<Row>, left: seq<Row>, k: nat)
    requires all == was + left && k <= |left|
    ensures var now := was + left[..k]; |now| <= |all| && now == all[..|now|] && left[k..] == all[|now|..]
  {
  }

  // Exactly once, over any number of runs of one snapshot, each dying after any batch, and any use of the swap
  // between them: everything sent, in order, is a prefix of what was pending at the start, so no holder is ever
  // imported twice; and once nothing is pending it is all of it.
  lemma {:induction false} ImportedExactlyOnce(ls: seq<Ledger>, rows: seq<Row>, es: seq<Life>)
    requires History(ls, rows, es) && Distinct(rows)
    ensures var first, sent := Pending(rows, ls[0].migrated), AllSent(ls, rows, es);
            |sent| <= |first| && sent == first[..|sent|] && Pending(rows, ls[|es|].migrated) == first[|sent|..]
    ensures Pending(rows, ls[|es|].migrated) == [] ==> AllSent(ls, rows, es) == Pending(rows, ls[0].migrated)
    decreases |es|
  {
    hide Pending, Imported, RowsTotal, Distinct;
    var first := Pending(rows, ls[0].migrated);
    if es != [] {
      var n := |es| - 1;
      var was := AllSent(ls[..n + 1], rows, es[..n]);
      ImportedExactlyOnce(ls[..n + 1], rows, es[..n]);
      var left := Pending(rows, ls[n].migrated);
      if es[n].RunOf? {
        ResumeSendsTheRest(rows, ls[n].migrated, es[n].sent);
        ImportedTotals(ls[n], left[..es[n].sent]);
        PrefixGrows(first, was, left, es[n].sent);
      }
    }
  }

  // With nobody else using the swap, the whole history is one import of a prefix: each holder has its snapshot
  // amounts on top of what it had, once, and the total owed grew by exactly those.
  lemma {:induction false} QuietHistory(ls: seq<Ledger>, rows: seq<Row>, es: seq<Life>)
    requires History(ls, rows, es) && Distinct(rows) && forall e <- es :: e.RunOf?
    ensures ls[|es|] == Imported(ls[0], AllSent(ls, rows, es))
    ensures ls[|es|].accounted == ls[0].accounted + RowsTotal(AllSent(ls, rows, es))
    decreases |es|
  {
    if es != [] {
      var n := |es| - 1;
      QuietHistory(ls[..n + 1], rows, es[..n]);
      ImportedSplit(ls[0], AllSent(ls[..n + 1], rows, es[..n]), SentBy(ls[n], rows, es[n]));
    }
    ImportedTotals(ls[0], AllSent(ls, rows, es));
  }

  // ---------------------------------------------------------------- the funding check on a resumed run

  // The check asks for the whole import again on top of what is owed, so with `sent` already in, a run over the
  // same MCGP passes it exactly when that much more than the import was there to begin with.
  lemma ResumeFunding(l: Ledger, rows: seq<Row>, sent: seq<Row>, held: nat)
    ensures held >= Imported(l, sent).accounted + RowsTotal(rows) <==>
              held >= l.accounted + RowsTotal(rows) + RowsTotal(sent)
  {
    ImportedTotals(l, sent);
  }

  // So an import funded to the last wei and then interrupted cannot be resumed, although what is left would fit.
  lemma ExactFundingCannotResume(l: Ledger, rows: seq<Row>, k: nat)
    requires WellFormed(rows) && 0 < k <= |rows|
    ensures var held := l.accounted + RowsTotal(rows);
            held < Imported(l, rows[..k]).accounted + RowsTotal(rows) &&
            held == Imported(l, rows[..k]).accounted + RowsTotal(rows[k..])
  {
    ImportedTotals(l, rows[..k]);
    ImportedSplit(l, rows[..k], rows[k..]);
    assert rows[..k] + rows[k..] == rows;
    assert Amount(rows[k - 1]) > 0 && rows[..k][..k - 1] == rows[..k - 1];
  }

  // ---------------------------------------------------------------- the script

  method Sums(hs: seq<Holder>) returns (import_: nat, pending: nat)
    ensures import_ == RowsTotal(Rows(hs)) && pending == PendingTotal(hs)
  {
    import_, pending := 0, 0;
    for i := 0 to |hs|
      invariant import_ == RowsTotal(Rows(hs[..i])) && pending == PendingTotal(hs[..i])
    {
      assert hs[..i + 1][..i] == hs[..i];
      assert Rows(hs[..i + 1])[..i] == Rows(hs[..i]);
      import_, pending := import_ + Amount(hs[i].row), pending + hs[i].pendingSettle;
    }
    assert hs[..|hs|] == hs;
  }

  method ImportTotal(rows: seq<Row>) returns (total: nat)
    ensures total == RowsTotal(rows)
  {
    total := 0;
    for i := 0 to |rows|
      invariant total == RowsTotal(rows[..i])
    {
      assert rows[..i + 1][..i] == rows[..i];
      total := total + Amount(rows[i]);
    }
    assert rows[..|rows|] == rows;
  }

  method StillPending(v2: Swap, rows: seq<Row>) returns (left: seq<Row>)
    ensures left == Pending(rows, v2.ledger.migrated)
  {
    left := [];
    for i := 0 to |rows|
      invariant left == Pending(rows[..i], v2.ledger.migrated)
    {
      assert rows[..i + 1][..i] == rows[..i];
      if rows[i].user !in v2.ledger.migrated { left := left + [rows[i]]; }
    }
    assert rows[..|rows|] == rows;
  }

  // One more batch after the first i rows: what it does to the ledger, and that all the rows are fine only if
  // it is.
  lemma BatchAfter(l: Ledger, rows: seq<Row>, i: nat, end: nat)
    requires i <= end <= |rows|
    ensures Imported(l, rows[..end]) == Imported(Imported(l, rows[..i]), rows[i..end])
    ensures RowsOk(l, rows[..end]) <==> RowsOk(l, rows[..i]) && RowsOk(Imported(l, rows[..i]), rows[i..end])
    ensures RowsOk(l, rows) ==> RowsOk(l, rows[..end])
    ensures Imported(l, rows[..i]).accounted + RowsTotal(rows[i..end]) <= l.accounted + RowsTotal(rows)
    ensures Imported(l, rows[..i]).closed == l.closed
  {
    assert rows[..i] + rows[i..end] == rows[..end] && rows[..end] + rows[end..] == rows;
    ImportedSplit(l, rows[..i], rows[i..end]);
    ImportedSplit(l, rows[..end], rows[end..]);
    ImportedTotals(l, rows[..i]);
  }

  // The contract has what all the rows come to, and lets the signer import them.
  ghost predicate Backed(v2: Swap, l: Ledger, signer: Addr, rows: seq<Row>)
    reads v2, v2.token
  {
    l.accounted + RowsTotal(rows) <= v2.Held() && signer == v2.owner && !l.closed
  }

  // How many rows n full batches are, and how many of `len` rows they reach.
  function Batches(n: nat, batch: nat): nat { if n == 0 then 0 else Batches(n - 1, batch) + batch }

  function Reach(n: nat, batch: nat, len: nat): nat { if Batches(n, batch) < len then Batches(n, batch) else len }

  // n batches are n times their size, but never more than there is.
  lemma {:induction false} BatchesAre(n: nat, batch: nat, len: nat)
    ensures Batches(n, batch) == n * batch
    ensures Reach(n, batch, len) == if n * batch <= len then n * batch else len
  {
    if n > 0 {
      BatchesAre(n - 1, batch, len);
      assert (n - 1) * batch + batch == n * batch;
    }
  }

  lemma {:induction false} MoreBatches(m: nat, n: nat, batch: nat)
    requires m <= n
    ensures Batches(m, batch) <= Batches(n, batch)
    ensures batch >= 1 ==> n <= Batches(n, batch)
  {
    if m < n { MoreBatches(m, n - 1, batch); } else if n > 0 { MoreBatches(n - 1, n - 1, batch); }
  }

  lemma PrefixOk(l: Ledger, rows: seq<Row>, m: nat, n: nat)
    requires m <= n <= |rows| && RowsOk(l, rows[..n])
    ensures RowsOk(l, rows[..m])
  {
    BatchAfter(l, rows[..n], 0, m);
    assert rows[..n][..m] == rows[..m];
  }

  lemma NoRows(l: Ledger)
    ensures RowsOk(l, []) && Imported(l, []) == l
  {
  }

  // Sends the rows in batches. The process may die before any of them (`fuse` counts the ones it lives to send).
  method SendBatches(v2: Swap, signer: Addr, rows: seq<Row>, batch: nat, fuse: nat)
    returns (o: Outcome, sent: nat)
    requires v2.Valid() && batch >= 1
    modifies v2`ledger
    ensures v2.Valid() && sent <= |rows| && v2.ledger == Imported(old(v2.ledger), rows[..sent])
    ensures RowsOk(old(v2.ledger), rows[..sent])
    ensures o in {Died, Failed(BatchReverted), Verified}
    ensures o.Verified? ==> sent == |rows| <= Batches(fuse, batch)
    ensures o.Died? ==> sent == Batches(fuse, batch) < |rows|
    // Backed, a batch reverts exactly when a row it lives to send is one the contract does not take.
    ensures Backed(v2, old(v2.ledger), signer, rows) ==>
              (o.Failed? <==> !RowsOk(old(v2.ledger), rows[..Reach(fuse, batch, |rows|)]))
  {
    hide RowsOk, Imported, RowsTotal;
    ghost var l := v2.ledger;
    var n := 0;
    sent := 0;
    NoRows(l);
    assert rows[..0] == [] && rows[..|rows|] == rows;
    while sent < |rows|
      invariant 0 <= sent <= |rows| && v2.Valid() && n <= fuse
      invariant if sent < |rows| then sent == Batches(n, batch) else |rows| <= Batches(n, batch)
      invariant v2.ledger == Imported(l, rows[..sent]) && RowsOk(l, rows[..sent])
    {
      if n == fuse { return Died, sent; }
      var end := if sent + batch <= |rows| then sent + batch else |rows|;
      BatchAfter(l, rows, sent, end);
      MoreBatches(n + 1, fuse, batch);
      var ok := v2.MigratePremium(signer, rows[sent..end]);
      if !ok {
        var reach := Reach(fuse, batch, |rows|);
        if RowsOk(l, rows[..reach]) { PrefixOk(l, rows, end, reach); }
        return Failed(BatchReverted), sent;
      }
      n := n + 1;
      sent := end;
    }
    MoreBatches(n, fuse, batch);
    o := Verified;
  }

  // The holder has its row on top of what it had, or just what it had when it was imported earlier.
  predicate Matches(l: Ledger, r: Row, before: Ledger, already: set<Addr>) {
    var skipped := r.user in already;
    At(l.bought, r.user) == At(before.bought, r.user) + (if skipped then 0 else r.bought) &&
    At(l.credited, r.user) == At(before.credited, r.user) + (if skipped then 0 else r.credited)
  }

  // Compares every holder against the snapshot: the amounts this run sent on top of what was there before.
  method CountMismatches(v2: Swap, rows: seq<Row>, before: Ledger, already: set<Addr>) returns (bad: nat)
    ensures bad == 0 <==> forall r <- rows :: Matches(v2.ledger, r, before, already)
    ensures bad == 0 <==> forall r <- rows ::
              var skipped := r.user in already;
              At(v2.ledger.bought, r.user) == At(before.bought, r.user) + (if skipped then 0 else r.bought) &&
              At(v2.ledger.credited, r.user) == At(before.credited, r.user) + (if skipped then 0 else r.credited)
  {
    bad := 0;
    for i := 0 to |rows|
      invariant bad == 0 <==> forall j :: 0 <= j < i ==> Matches(v2.ledger, rows[j], before, already)
    {
      var r := rows[i];
      var addB := if r.user in already then 0 else r.bought;
      var addC := if r.user in already then 0 else r.credited;
      if At(v2.ledger.bought, r.user) != At(before.bought, r.user) + addB ||
         At(v2.ledger.credited, r.user) != At(before.credited, r.user) + addC { bad := bad + 1; }
    }
  }

  // The whole import matches on every row, so a finished run never reports a mismatch.
  lemma FullImportMatches(before: Ledger, rows: seq<Row>)
    requires RowsOk(before, Pending(rows, before.migrated))
    ensures var l := Imported(before, Pending(rows, before.migrated));
            forall r <- rows :: Matches(l, r, before, before.migrated)
  {
    var p := Pending(rows, before.migrated);
    OkRowsDistinct(before, p);
    PendingIn(rows, before.migrated);
    forall r <- rows ensures Matches(Imported(before, p), r, before, before.migrated) {
      if r in p {
        var i :| 0 <= i < |p| && p[i] == r;
        ImportedAt(before, p, i);
      } else {
        ImportedElsewhere(before, p, r.user);
      }
    }
  }

  lemma {:induction false} OkRowsDistinct(l: Ledger, rows: seq<Row>)
    requires RowsOk(l, rows)
    ensures Distinct(rows)
  {
    if rows != [] {
      OkRowsDistinct(l, rows[..|rows| - 1]);
      ImportedTotals(l, rows[..|rows| - 1]);
    }
  }

  // The old swap's ledger after withdrawals, the only move left once it is paused.
  ghost function AfterExits(l: Ledger, es: seq<Exit>): Ledger {
    if es == [] then l
    else
      var was, e := AfterExits(l, es[..|es| - 1]), es[|es| - 1];
      if 0 < e.amount <= At(was.bought, e.user) && e.amount <= was.accounted
      then was.(bought := was.bought[e.user := At(was.bought, e.user) - e.amount],
          accounted := was.accounted - e.amount)
      else was
  }

  // One of the withdrawals can be made from the ledger as it is.
  predicate SomeoneLeaves(l: Ledger, es: seq<Exit>) { exists e <- es :: 0 < e.amount <= At(l.bought, e.user) }

  // The total is back where it was exactly when nobody withdrew anything: holder by holder the ledger is the same.
  lemma {:induction false} TotalTellsEveryMove(l: Ledger, es: seq<Exit>)
    ensures var l' := AfterExits(l, es);
            l'.accounted <= l.accounted && (l'.accounted == l.accounted <==> l' == l) &&
            (Accounts(l) ==> (l' == l <==> !SomeoneLeaves(l, es))) &&
            l' == l.(bought := l'.bought, accounted := l'.accounted)
  {
    if es != [] {
      var n := |es| - 1;
      TotalTellsEveryMove(l, es[..n]);
      TotalUpdate(l.bought, es[n].user, 0);
      assert es == es[..n] + [es[n]];
    }
  }

  lemma OwedAtLeast(l: Ledger, a: Addr)
    requires Accounts(l)
    ensures At(l.bought, a) <= l.accounted
  {
    TotalUpdate(l.bought, a, 0);
  }

  // What other holders do on the old swap while the run sends: withdrawals, the one move a pause leaves open.
  method Meanwhile(v1: Swap, v2: Swap, exits: seq<Exit>)
    requires v1.Valid() && v2.Valid() && v1 != v2 && v1.token == v2.token && v1.self != v2.self
    requires forall e <- exits :: e.user != v1.self && e.user != v2.self
    modifies v1`ledger, v1.token`balance
    ensures v1.Valid() && v2.Valid() && v2.Held() == old(v2.Held()) && v1.token.Supply() == old(v1.token.Supply())
    ensures v1.ledger == AfterExits(old(v1.ledger), exits)
  {
    hide Total;
    ghost var l := v1.ledger;
    for i := 0 to |exits|
      invariant v1.Valid() && v2.Valid() && v2.Held() == old(v2.Held()) && v1.token.Supply() == old(v1.token.Supply())
      invariant v1.ledger == AfterExits(l, exits[..i])
    {
      assert exits[..i + 1][..i] == exits[..i];
      OwedAtLeast(v1.ledger, exits[i].user);
      var _ := v1.WithdrawPremiumToWallet(exits[i]);
    }
    assert exits[..|exits|] == exits;
  }

  // Everything checked before the first transaction.
  ghost predicate Ready(v1: Swap, v2: Swap, signer: Addr, snap: Snapshot, opts: Options)
    reads v1, v2, v2.token
  {
    && RowsTotal(Rows(snap.holders)) == snap.accounted == v1.ledger.accounted && PendingTotal(snap.holders) == 0
    && (v1.paused || opts.skipPauseCheck) && (v2.owner == signer || !opts.execute) && !v2.ledger.closed
    && v2.ledger.accounted + snap.accounted <= v2.Held()
  }

  // Refuses for the first of its reasons that is met, and goes on when none is.
  method Preflight(v1: Swap, v2: Swap, signer: Addr, snap: Snapshot, opts: Options) returns (ok: bool, why: Why)
    ensures ok <==> Ready(v1, v2, signer, snap, opts)
    ensures var total, inFlight := RowsTotal(Rows(snap.holders)), PendingTotal(snap.holders);
            (ok, why) ==
              if total + inFlight != snap.accounted then (false, Inconsistent)
              else if inFlight != 0 then (false, PendingSettle)
              else if !(v1.paused || opts.skipPauseCheck) then (false, NotPaused)
              else if v1.ledger.accounted != snap.accounted then (false, SourceChanged)
              else if opts.execute && signer != v2.owner then (false, NotOwner)
              else if v2.ledger.closed then (false, AlreadySealed)
              else (v2.ledger.accounted + total <= v2.Held(), Underfunded)
  {
    ok := false;
    var import_, inFlight := Sums(snap.holders);
    if import_ + inFlight != snap.accounted { why := Inconsistent; return; }
    if inFlight > 0 { why := PendingSettle; return; }
    if !v1.paused && !opts.skipPauseCheck { why := NotPaused; return; }
    if snap.accounted != v1.ledger.accounted { why := SourceChanged; return; }
    if v2.owner != signer && opts.execute { why := NotOwner; return; }
    if v2.ledger.closed { why := AlreadySealed; return; }
    why := Underfunded;
    ok := v2.Held() >= v2.ledger.accounted + import_;
  }

  // The checks after the last batch, the source's among them, for any ledger they may find: the first that does not
  // hold is what fails.
  method PostChecks(v1: Swap, v2: Swap, snap: Snapshot, before: Ledger, total: nat) returns (o: Outcome)
    ensures o ==
      if v2.ledger.accounted != before.accounted + total then Failed(DeltaMismatch)
      else if exists h <- snap.holders ::
                var r, skipped := h.row, h.row.user in before.migrated;
                At(v2.ledger.bought, r.user) != At(before.bought, r.user) + (if skipped then 0 else r.bought) ||
                At(v2.ledger.credited, r.user) != At(before.credited, r.user) + (if skipped then 0 else r.credited)
      then Failed(HolderMismatch)
      else if v1.ledger.accounted != snap.accounted then Failed(SourceMoved)
      else if v2.Held() < v2.ledger.accounted then Failed(UnderbackedAfter)
      else Verified
  {
    var bad := CountMismatches(v2, Rows(snap.holders), before, before.migrated);
    RowsAreHolders(snap.holders);
    if v2.ledger.accounted != before.accounted + total { return Failed(DeltaMismatch); }
    if bad > 0 { return Failed(HolderMismatch); }
    if v1.ledger.accounted != snap.accounted { return Failed(SourceMoved); }
    if v2.Held() < v2.ledger.accounted { return Failed(UnderbackedAfter); }
    o := Verified;
  }

  lemma RowsAreHolders(hs: seq<Holder>)
    ensures forall r :: r in Rows(hs) <==> exists h <- hs :: h.row == r
  {
    forall r ensures r in Rows(hs) <==> exists h <- hs :: h.row == r {
      if r in Rows(hs) {
        var i :| 0 <= i < |hs| && Rows(hs)[i] == r;
        assert hs[i] in hs;
      }
      if h :| h in hs && h.row == r {
        var i :| 0 <= i < |hs| && hs[i] == h;
        assert Rows(hs)[i] == r;
      }
    }
  }

  // After this run's own import only the source can fail.
  lemma OwnImportPasses(v1: Swap, v2: Swap, snap: Snapshot, before: Ledger)
    requires v2.Valid() && RowsOk(before, Due(snap, before)) && v2.ledger == Imported(before, Due(snap, before))
    ensures v2.ledger.accounted == before.accounted + RowsTotal(Due(snap, before)) && v2.ledger.accounted <= v2.Held()
    ensures forall h <- snap.holders ::
              var r, skipped := h.row, h.row.user in before.migrated;
              At(v2.ledger.bought, r.user) == At(before.bought, r.user) + (if skipped then 0 else r.bought) &&
              At(v2.ledger.credited, r.user) == At(before.credited, r.user) + (if skipped then 0 else r.credited)
  {
    FullImportMatches(before, Rows(snap.holders));
    ImportedTotals(before, Due(snap, before));
    RowsAreHolders(snap.holders);
    forall h <- snap.holders ensures Matches(v2.ledger, h.row, before, before.migrated) {
      assert h.row in Rows(snap.holders);
    }
  }

  // Not imported yet, rows pass the contract's checks exactly when they are distinct, named and non-empty.
  lemma RowsOkWhenWellFormed(l: Ledger, rows: seq<Row>)
    requires forall r <- rows :: r.user !in l.migrated
    ensures RowsOk(l, rows) <==> WellFormed(rows)
  {
    if RowsOk(l, rows) {
      OkRowsDistinct(l, rows);
      OkRowsFull(l, rows);
    } else if WellFormed(rows) {
      FreshRowsOk(l, rows);
    }
  }

  // What the contract takes, row by row: named, for something, imported neither before nor in these rows.
  lemma RowsTakenWhen(l: Ledger, rows: seq<Row>)
    ensures RowsOk(l, rows) <==>
              (forall i :: 0 <= i < |rows| ==>
                 rows[i].user != 0 && rows[i].bought + rows[i].credited > 0 && rows[i].user !in l.migrated) &&
              (forall i, j :: 0 <= i < j < |rows| ==> rows[i].user != rows[j].user)
  {
    if RowsOk(l, rows) { OkRowsFresh(l, rows); }
    RowsOkWhenWellFormedIf(l, rows);
  }

  lemma RowsOkWhenWellFormedIf(l: Ledger, rows: seq<Row>)
    ensures (forall r <- rows :: r.user !in l.migrated) ==> (RowsOk(l, rows) <==> WellFormed(rows))
  {
    if forall r <- rows :: r.user !in l.migrated { RowsOkWhenWellFormed(l, rows); }
  }

  lemma {:induction false} OkRowsFresh(l: Ledger, rows: seq<Row>)
    requires RowsOk(l, rows)
    ensures forall r <- rows :: r.user !in l.migrated
  {
    if rows != [] {
      var was := rows[..|rows| - 1];
      OkRowsFresh(l, was);
      ImportedTotals(l, was);
      assert rows == was + [rows[|rows| - 1]];
    }
  }

  lemma {:induction false} OkRowsFull(l: Ledger, rows: seq<Row>)
    requires RowsOk(l, rows)
    ensures forall r <- rows :: r.user != 0 && Amount(r) > 0
  {
    if rows != [] {
      OkRowsFull(l, rows[..|rows| - 1]);
      assert rows == rows[..|rows| - 1] + [rows[|rows| - 1]];
    }
  }

  // The rows a run sends when everything before the first transaction is in order.
  ghost function Due(snap: Snapshot, l: Ledger): seq<Row> { Pending(Rows(snap.holders), l.migrated) }

  // One run of the script, alive for `fuse` batches, with `exits` tried on the old swap while it sends.
  method Migrate(v1: Swap, v2: Swap, signer: Addr, snap: Snapshot, opts: Options, fuse: nat, exits: seq<Exit>)
    returns (o: Outcome, ghost sent: nat)
    requires v1.Valid() && v2.Valid() && v1 != v2 && v1.token == v2.token && v1.self != v2.self && opts.batch >= 1
    requires forall e <- exits :: e.user != v1.self && e.user != v2.self
    modifies v2`ledger, v1`ledger, v1.token`balance
    ensures v1.Valid() && v2.Valid() && v1.token.Supply() == old(v1.token.Supply()) && v2.Held() == old(v2.Held())
    // Whatever happened, the ledger is the old one with a prefix of the pending rows imported.
    ensures sent <= |Due(snap, old(v2.ledger))|
    ensures v2.ledger ==
              Imported(old(v2.ledger), Due(snap, old(v2.ledger))[..sent]).(closed := old(v2.ledger).closed || o.Sealed?)
    ensures o.Refused? || o.DryRun? ==> sent == 0
    ensures o.Died? ==> sent == Batches(fuse, opts.batch)
    ensures o.Verified? || o.Sealed? || o == Failed(SourceMoved) ==> sent == |Due(snap, old(v2.ledger))|
    // How it ends, from what it was given. The checks of the run's own import never fire.
    ensures o.Refused? <==> !old(Ready(v1, v2, signer, snap, opts))
    ensures o == Refused(Underfunded) ==> v2.Held() < old(v2.ledger).accounted + RowsTotal(Rows(snap.holders))
    ensures o.DryRun? <==> old(Ready(v1, v2, signer, snap, opts)) && !opts.execute
    ensures var due := Due(snap, old(v2.ledger)); var reach := Reach(fuse, opts.batch, |due|);
            var goes := old(Ready(v1, v2, signer, snap, opts)) && opts.execute;
            var sends := goes && WellFormed(due) && reach == |due|;
            (o == Failed(BatchReverted) <==> goes && !WellFormed(due[..reach])) &&
            (o.Died? <==> goes && WellFormed(due[..reach]) && reach < |due|) &&
            (o == Failed(SourceMoved) <==> sends && SomeoneLeaves(old(v1.ledger), exits)) &&
            (o.Verified? <==> sends && !SomeoneLeaves(old(v1.ledger), exits) && !opts.seal) &&
            (o.Sealed? <==> sends && !SomeoneLeaves(old(v1.ledger), exits) && opts.seal)
    ensures o.Failed? ==> o.why in {BatchReverted, SourceMoved}
    ensures v1.ledger == old(v1.ledger) || v1.ledger == AfterExits(old(v1.ledger), exits)
    // Passing the last check means nobody left the old swap while the run went on.
    ensures o.Verified? || o.Sealed? ==> v1.ledger == old(v1.ledger) && v1.ledger.accounted == snap.accounted
  {
    hide RowsOk, Pending, RowsTotal, WellFormed, SomeoneLeaves, AfterExits;
    sent := 0;
    var rows := Rows(snap.holders);
    var ok, why := Preflight(v1, v2, signer, snap, opts);
    var before := v2.ledger;
    var pending := StillPending(v2, rows);
    assert Imported(before, pending[..0]) == before;
    if !ok { return Refused(why), 0; }
    if !opts.execute { return DryRun, 0; }
    ghost var reach := Reach(fuse, opts.batch, |pending|);
    PendingBacked(v2, signer, rows, reach);
    var k: nat;
    o, k := SendBatches(v2, signer, pending, opts.batch, fuse);
    sent := k;
    ImportedTotals(before, pending[..sent]);
    assert pending[..|pending|] == pending;
    if !o.Verified? { return; }
    TotalTellsEveryMove(v1.ledger, exits);
    Meanwhile(v1, v2, exits);
    var total := ImportTotal(pending);
    OwnImportPasses(v1, v2, snap, before);
    o := PostChecks(v1, v2, snap, before, total);
    if o.Verified? && opts.seal {
      var closed := v2.CloseMigration(signer);
      o := Sealed;
    }
  }

  lemma PendingBacked(v2: Swap, signer: Addr, rows: seq<Row>, n: nat)
    requires v2.ledger.accounted + RowsTotal(rows) <= v2.Held() && signer == v2.owner && !v2.ledger.closed
    requires n <= |Pending(rows, v2.ledger.migrated)|
    ensures Backed(v2, v2.ledger, signer, Pending(rows, v2.ledger.migrated))
    ensures var p := Pending(rows, v2.ledger.migrated)[..n]; RowsOk(v2.ledger, p) <==> WellFormed(p)
  {
    PendingFits(rows, v2.ledger.migrated);
    PendingIn(rows, v2.ledger.migrated);
    RowsOkWhenWellFormed(v2.ledger, Pending(rows, v2.ledger.migrated)[..n]);
  }

  lemma {:induction false} PendingFits(rows: seq<Row>, migrated: set<Addr>)
    ensures RowsTotal(Pending(rows, migrated)) <= RowsTotal(rows)
  {
    if rows != [] {
      PendingFits(rows[..|rows| - 1], migrated);
      var before := Pending(rows[..|rows| - 1], migrated);
      assert (before + [rows[|rows| - 1]])[..|before|] == before;
    }
  }

  // ---------------------------------------------------------------- runs up to a seal

  datatype Attempt = Attempt(opts: Options, fuse: nat, exits: seq<Exit>)

  lemma RestIsDue(snap: Snapshot, l: Ledger, sent: nat)
    requires Distinct(Rows(snap.holders)) && sent <= |Due(snap, l)|
    ensures Due(snap, Imported(l, Due(snap, l)[..sent])) == Due(snap, l)[sent..]
  {
    ResumeSendsTheRest(Rows(snap.holders), l.migrated, sent);
    ImportedTotals(l, Due(snap, l)[..sent]);
  }

  // Another k of the rows due, after the first `sent` of them.
  lemma MoreSent(l: Ledger, due: seq<Row>, sent: nat, k: nat)
    requires sent <= |due| && k <= |due| - sent
    ensures Imported(Imported(l, due[..sent]), due[sent..][..k]) == Imported(l, due[..sent + k])
  {
    ImportedSplit(l, due[..sent], due[sent..][..k]);
    assert due[..sent] + due[sent..][..k] == due[..sent + k];
  }

  // Any number of runs of one snapshot, each dying, failing or finishing as it may, with withdrawals from the old
  // swap during each, until one seals: the new ledger always is the old one with a prefix of the rows due at the
  // start imported, each row once. A seal means that all of them are in, and that the old swap shows the snapshot's
  // total -- so, if it did at the start, that nobody has left it in any of the runs.
  method MigrateUntilSealed(v1: Swap, v2: Swap, signer: Addr, snap: Snapshot, runs: seq<Attempt>)
    returns (sealed: bool, ghost sent: nat)
    requires v1.Valid() && v2.Valid() && v1 != v2 && v1.token == v2.token && v1.self != v2.self
    requires Distinct(Rows(snap.holders))
    requires forall x <- runs :: x.opts.batch >= 1 && forall e <- x.exits :: e.user != v1.self && e.user != v2.self
    modifies v2`ledger, v1`ledger, v1.token`balance
    ensures v1.Valid() && v2.Valid() && v1.token.Supply() == old(v1.token.Supply()) && v2.Held() == old(v2.Held())
    ensures sent <= |Due(snap, old(v2.ledger))|
    ensures v2.ledger ==
              Imported(old(v2.ledger), Due(snap, old(v2.ledger))[..sent]).(closed := old(v2.ledger).closed || sealed)
    ensures sealed ==> sent == |Due(snap, old(v2.ledger))| && v1.ledger.accounted == snap.accounted
    ensures sealed && old(v1.ledger.accounted) == snap.accounted ==> v1.ledger == old(v1.ledger)
  {
    hide Pending, Imported, RowsOk, WellFormed, RowsTotal, Distinct, AfterExits, SomeoneLeaves;
    ghost var l1, l2 := v1.ledger, v2.ledger;
    ghost var due := Due(snap, l2);
    sealed, sent := false, 0;
    NoRows(l2);
    assert due[..0] == [] && l2 == l2.(closed := l2.closed || false);
    for i := 0 to |runs|
      invariant v1.Valid() && v2.Valid() && v1.token.Supply() == old(v1.token.Supply()) && v2.Held() == old(v2.Held())
      invariant !sealed && sent <= |due| && v2.ledger == Imported(l2, due[..sent]) && v2.ledger.closed == l2.closed
      invariant v1.ledger.accounted <= l1.accounted && (v1.ledger.accounted == l1.accounted ==> v1.ledger == l1)
    {
      ghost var was1, was2 := v1.ledger, v2.ledger;
      TotalTellsEveryMove(was1, runs[i].exits);
      RestIsDue(snap, l2, sent);
      var o;
      ghost var k: nat;
      o, k := Migrate(v1, v2, signer, snap, runs[i].opts, runs[i].fuse, runs[i].exits);
      MoreSent(l2, due, sent, k);
      ImportedTotals(was2, due[sent..][..k]);
      sent := sent + k;
      if o.Sealed? { return true, sent; }
      assert v2.ledger == v2.ledger.(closed := l2.closed);
    }
  }

  // A run that died, resumed over the same MCGP and asked to seal: it does exactly when the rows can be imported, it
  // lives for those left, nobody leaves, and there is MCGP for the whole import and, again, for what the first run
  // sent. Then the import is complete.
  method DiedThenResumed(v1: Swap, v2: Swap, signer: Addr, snap: Snapshot, opts: Options, fuse: nat, more: nat,
                         exits: seq<Exit>) returns (first: Outcome, second: Outcome)
    requires v1.Valid() && v2.Valid() && v1 != v2 && v1.token == v2.token && v1.self != v2.self && opts.batch >= 1
    requires forall e <- exits :: e.user != v1.self && e.user != v2.self
    requires Distinct(Rows(snap.holders)) && opts.seal
    modifies v2`ledger, v1`ledger, v1.token`balance
    ensures v1.Valid() && v2.Valid()
    ensures first.Died? ==>
              var l := old(v2.ledger); var due := Due(snap, l); var sent := Batches(fuse, opts.batch);
              sent <= |due| &&
              (second.Sealed? <==>
                 WellFormed(due[sent..]) && |due| - sent <= Batches(more, opts.batch) &&
                 !SomeoneLeaves(old(v1.ledger), exits) &&
                 v2.Held() >= l.accounted + RowsTotal(Rows(snap.holders)) + RowsTotal(due[..sent]))
    ensures first.Died? && second.Sealed? ==>
              v2.ledger == Imported(old(v2.ledger), Due(snap, old(v2.ledger))).(closed := true) &&
              v1.ledger == old(v1.ledger)
  {
    hide Pending, Imported, RowsOk, WellFormed, RowsTotal, Distinct, AfterExits, SomeoneLeaves;
    ghost var l, due := v2.ledger, Due(snap, v2.ledger);
    ghost var sent: nat, k: nat;
    first, sent := Migrate(v1, v2, signer, snap, opts, fuse, []);
    NoExits(old(v1.ledger));
    ImportedTotals(l, due[..sent]);
    RestIsDue(snap, l, sent);
    second, k := Migrate(v1, v2, signer, snap, opts, more, exits);
    MoreSent(l, due, sent, k);
    assert due[sent..][..|due| - sent] == due[sent..] && due[..|due|] == due;
  }

  lemma NoExits(l: Ledger)
    ensures AfterExits(l, []) == l && !SomeoneLeaves(l, [])
  {
  }
}
