// Freezing the old swap and funding the new one (smart-contracts/scripts/cutover-freeze.js), and the three
// scripts in a row as the rehearsal runs them (smart-contracts/scripts/rehearse-fresh-cutover.js).
module Cutover {
  import opened Common
  import opened Totals
  import opened SwapContract
  import opened Migrate
  import opened SnapshotScript

  datatype FreezeOutcome = NotStarted | Planned | Cut | Reverted | Frozen

  ghost predicate Apart(v1: Swap, v2: Swap, signer: Addr) {
    v1 != v2 && v1.token == v2.token && v1.self != v2.self && signer != v1.self && signer != v2.self && signer != 0
  }

  // MCGP in the three places the cutover moves it between.
  ghost function InPlay(v1: Swap, v2: Swap, signer: Addr): nat
    reads v1.token, v2.token
  {
    v1.Held() + v2.Held() + At(v1.token.balance, signer)
  }

  // One run, alive for `fuse` transactions. Wherever it stops, both swaps hold at least what they owe and no MCGP
  // is lost between them and the signer.
  method Freeze(v1: Swap, v2: Swap, signer: Addr, buffer: nat, execute: bool, quotes: bool, fuse: nat)
    returns (o: FreezeOutcome)
    requires v1.Valid() && v2.Valid() && Apart(v1, v2, signer)
    modifies v1`paused, v1.token
    ensures v1.Valid() && v2.Valid() && InPlay(v1, v2, signer) == old(InPlay(v1, v2, signer))
    ensures v1.token.Supply() == old(v1.token.Supply())
    // How it ends, from what it was given. It does not start on a target that cannot quote or is sealed, for a signer
    // that is not both swaps' owner, or when what is owed twice and the buffer is more than the source holds; and with
    // nothing owed and no buffer there is nothing to withdraw, and the withdrawal reverts.
    ensures var can := quotes && !v2.ledger.closed && !(execute && (signer != v1.owner || signer != v2.owner)) &&
                       !(2 * v1.ledger.accounted + buffer > old(v1.Held()));
            var move := v1.ledger.accounted + buffer; var pauses := if old(v1.paused) then 0 else 1;
            (o.NotStarted? <==> !can) &&
            (o.Planned? <==> can && !execute) &&
            (o.Cut? <==> can && execute && fuse < pauses + (if move > 0 then 3 else 1)) &&
            (o.Reverted? <==> can && execute && fuse >= pauses + 1 && move == 0) &&
            (o.Frozen? <==> can && execute && fuse >= pauses + 3 && move > 0)
    ensures o.NotStarted? || o.Planned? ==> v1.paused == old(v1.paused) && v1.token.balance == old(v1.token.balance)
    ensures v1.Held() < old(v1.Held()) ==> v1.paused
    ensures !o.Frozen? ==> v2.Held() == old(v2.Held())
    ensures o.Frozen? ==> v1.paused && v2.Held() == old(v2.Held()) + v1.ledger.accounted + buffer
    ensures o.Frozen? ==> v1.Held() == old(v1.Held()) - (v1.ledger.accounted + buffer)
  {
    hide Total, Accounts;
    if execute && (signer != v1.owner || signer != v2.owner) { return NotStarted; }
    if v2.ledger.closed || !quotes { return NotStarted; }
    var owed := v1.ledger.accounted;
    var excess := if v1.Held() > owed then v1.Held() - owed else 0;
    var move := owed + buffer;
    if move > excess { return NotStarted; }
    if !execute { return Planned; }
    var left := fuse;
    if !v1.paused {
      if left == 0 { return Cut; }
      var _ := v1.Pause(signer);
      left := left - 1;
    }
    if left == 0 { return Cut; }
    var ok := v1.Withdraw(signer, signer, move);
    if !ok { return Reverted; }
    if left == 1 { return Cut; }
    v1.token.Approve(signer, v2.self, move);
    if left == 2 { return Cut; }
    ok := v2.Fund(signer, move);
    o := Frozen;
  }

  // ---------------------------------------------------------------- the source must not move

  // A run that got past its last check leaves no holder with an import and a withdrawal since the snapshot.
  lemma SealedMeansNobodyLeft(l: Ledger, es: seq<Exit>, snap: Snapshot)
    requires Lists(l, snap.holders) && snap.accounted == l.accounted
    requires AfterExits(l, es).accounted == snap.accounted
    ensures forall h <- snap.holders ::
              At(AfterExits(l, es).bought, h.row.user) == h.row.bought &&
              At(AfterExits(l, es).credited, h.row.user) == h.row.credited
  {
    TotalTellsEveryMove(l, es);
  }

  // ---------------------------------------------------------------- the whole cutover

  // The old ledger copied onto the new one, user by user.
  ghost predicate Copied(old1: Ledger, old2: Ledger, new2: Ledger) {
    && (forall a :: At(new2.bought, a) == At(old2.bought, a) + At(old1.bought, a) &&
                    At(new2.credited, a) == At(old2.credited, a) + At(old1.credited, a))
    && new2.accounted == old2.accounted + old1.accounted
  }

  datatype Rehearsed = NotFrozen | NoSnapshot | Imports(o: Outcome)

  // The scan found everybody with a balance.
  ghost predicate Found(l: Ledger, found: set<Addr>) { forall a :: Nonzero(l, a) ==> a in found }

  ghost predicate NonePending(l: Ledger) { forall a :: At(l.pending, a) == 0 }

  // Snapshot and first import of a frozen swap, with withdrawals from it while the import sends. Every holder's row
  // is taken, so it seals exactly when it is asked to, may, and nobody leaves.
  method SnapshotAndImport(v1: Swap, v2: Swap, signer: Addr, found: set<Addr>, opts: Options, during: seq<Exit>)
    returns (r: Rehearsed)
    requires v1.Valid() && v2.Valid() && Apart(v1, v2, signer) && opts.batch >= 1
    requires forall e <- during :: e.user != v1.self && e.user != v2.self
    requires v2.ledger.migrated == {} && !Nonzero(v1.ledger, 0)
    requires v2.ledger.accounted + v1.ledger.accounted <= v2.Held()
    modifies v1`ledger, v2`ledger, v1.token`balance
    ensures v1.Valid() && v2.Valid() && v1.token.Supply() == old(v1.token.Supply())
    ensures !r.NotFrozen? && (r.NoSnapshot? <==> !Found(old(v1.ledger), found))
    ensures r.Imports? ==> r.o != Refused(Underfunded) && r.o != Failed(BatchReverted) && !r.o.Died?
    ensures var may := Found(old(v1.ledger), found) && NonePending(old(v1.ledger)) && !old(v2.ledger.closed) &&
                       (v1.paused || opts.skipPauseCheck);
            var goes := may && v2.owner == signer && opts.execute;
            var leaves := SomeoneLeaves(old(v1.ledger), during);
            (r == Imports(DryRun) <==> may && !opts.execute) &&
            (r == Imports(Failed(SourceMoved)) <==> goes && leaves) &&
            (r == Imports(Verified) <==> goes && !leaves && !opts.seal) &&
            (r == Imports(Sealed) <==> goes && !leaves && opts.seal)
    ensures r == Imports(Sealed) ==> v1.ledger == old(v1.ledger) && v2.ledger.closed
    ensures r == Imports(Sealed) ==> Copied(v1.ledger, old(v2.ledger), v2.ledger)
  {
    hide Lists, SomeoneLeaves, Copied, Imported, WellFormed, Pending, RowsTotal, PendingTotal, Total, Accounts, Batches,
      Nonzero, NonePending, RowsOk, AfterExits;
    var written, snap := TakeSnapshot(v1, found);
    if !written { return NoSnapshot; }
    ghost var old1, old2 := v1.ledger, v2.ledger;
    var hs := snap.holders;
    ListedDue(old1, old2, snap, opts.batch);
    var o;
    ghost var sent: nat;
    o, sent := Migrate.Migrate(v1, v2, signer, snap, opts, |hs|, during);
    if o.Sealed? { CopiedWhole(old1, old2, hs, sent); }
    r := Imports(o);
  }

  // What a complete list means for its first import: every row is due and reached, and fine when nothing is in flight.
  lemma ListedDue(l: Ledger, l2: Ledger, snap: Snapshot, batch: nat)
    requires Lists(l, snap.holders) && l2.migrated == {} && batch >= 1 && !Nonzero(l, 0)
    ensures Due(snap, l2) == Rows(snap.holders) && |Rows(snap.holders)| == |snap.holders|
    ensures Reach(|snap.holders|, batch, |snap.holders|) == |snap.holders|
    ensures Rows(snap.holders)[..|snap.holders|] == Rows(snap.holders)
    ensures PendingTotal(snap.holders) == 0 <==> NonePending(l)
    ensures PendingTotal(snap.holders) == 0 ==> WellFormed(Rows(snap.holders))
  {
    ListedPending(l, snap.holders);
    if PendingTotal(snap.holders) == 0 { WrittenIsWellFormed(l, snap.holders); }
    NobodyMigrated(Rows(snap.holders));
    MoreBatches(0, |snap.holders|, batch);
  }

  // A complete list has nothing in flight exactly when the ledger has not.
  lemma ListedPending(l: Ledger, hs: seq<Holder>)
    requires Lists(l, hs)
    ensures PendingTotal(hs) == 0 <==> NonePending(l)
  {
    NothingInFlight(hs);
    if PendingTotal(hs) == 0 {
      forall a ensures At(l.pending, a) == 0 {
        if Nonzero(l, a) {
          var i :| 0 <= i < |hs| && hs[i] == HolderOf(l, a);
          assert hs[i].pendingSettle == 0;
        }
      }
    } else {
      var i :| 0 <= i < |hs| && hs[i].pendingSettle > 0;
      assert hs[i] in hs && At(l.pending, hs[i].row.user) > 0;
    }
  }

  lemma {:induction false} NothingInFlight(hs: seq<Holder>)
    ensures PendingTotal(hs) == 0 <==> forall i :: 0 <= i < |hs| ==> hs[i].pendingSettle == 0
  {
    if hs != [] {
      NothingInFlight(hs[..|hs| - 1]);
      assert forall i :: 0 <= i < |hs| - 1 ==> hs[..|hs| - 1][i] == hs[i];
    }
  }

  lemma CopiedWhole(old1: Ledger, old2: Ledger, hs: seq<Holder>, sent: nat)
    requires Lists(old1, hs) && RowsTotal(Rows(hs)) == old1.accounted && old2.migrated == {}
    requires sent == |Pending(Rows(hs), {})|
    ensures Copied(old1, old2, Imported(old2, Pending(Rows(hs), {})[..sent]).(closed := true))
  {
    NobodyMigrated(Rows(hs));
    assert Rows(hs)[..sent] == Rows(hs);
    ImportedTotals(old2, Rows(hs));
    ListedAmounts(old1, hs, old2);
  }

  // Freeze, snapshot, first import, with withdrawals from the old swap in between and during. The import is never
  // refused for funds, and it is sealed exactly when the freeze could run, the scan found everybody left, nothing is
  // in flight, sealing was asked for and nobody leaves while it sends. Then every holder of the old swap has on the
  // new one exactly what the old one still shows, once, on top of what was there.
  method Rehearse(v1: Swap, v2: Swap, signer: Addr, buffer: nat, quotes: bool, found: set<Addr>, opts: Options,
                  between: seq<Exit>, during: seq<Exit>) returns (r: Rehearsed)
    requires v1.Valid() && v2.Valid() && Apart(v1, v2, signer) && opts.batch >= 1
    requires forall e <- between :: e.user != v1.self && e.user != v2.self
    requires forall e <- during :: e.user != v1.self && e.user != v2.self
    requires v2.ledger.migrated == {} && !Nonzero(v1.ledger, 0)
    modifies v1, v2`ledger, v1.token
    ensures v1.Valid() && v2.Valid() && v1.token.Supply() == old(v1.token.Supply())
    ensures !quotes ==> r.NotFrozen?
    ensures var can := quotes && !old(v2.ledger.closed) && signer == v1.owner == v2.owner &&
                       old(2 * v1.ledger.accounted + buffer <= v1.Held()) && old(v1.ledger.accounted) + buffer > 0;
            var l := AfterExits(old(v1.ledger), between);
            (r.NotFrozen? <==> !can) &&
            var may := can && Found(l, found) && NonePending(l);
            var leaves := SomeoneLeaves(l, during);
            (r.NoSnapshot? <==> can && !Found(l, found)) &&
            (r == Imports(DryRun) <==> may && !opts.execute) &&
            (r == Imports(Failed(SourceMoved)) <==> may && opts.execute && leaves) &&
            (r == Imports(Verified) <==> may && opts.execute && !leaves && !opts.seal) &&
            (r == Imports(Sealed) <==> may && opts.execute && !leaves && opts.seal)
    ensures r.Imports? ==> r.o != Refused(Underfunded) && r.o != Failed(BatchReverted) && !r.o.Died?
    ensures r == Imports(Sealed) ==>
              v2.ledger.closed && v1.paused && v1.ledger == AfterExits(old(v1.ledger), between) &&
              Copied(v1.ledger, old(v2.ledger), v2.ledger)
  {
    hide Found, NonePending, SomeoneLeaves, AfterExits, Copied;
    var frozen := Freeze(v1, v2, signer, buffer, true, quotes, 4);
    if !frozen.Frozen? { return NotFrozen; }
    TotalTellsEveryMove(v1.ledger, between);
    StillNobody(v1.ledger, between, 0);
    Meanwhile(v1, v2, between);
    r := SnapshotAndImport(v1, v2, signer, found, opts, during);
  }

  // Withdrawals give nobody anything.
  lemma {:induction false} StillNobody(l: Ledger, es: seq<Exit>, a: Addr)
    requires !Nonzero(l, a)
    ensures !Nonzero(AfterExits(l, es), a)
  {
    if es != [] { StillNobody(l, es[..|es| - 1], a); }
  }

  lemma {:induction false} NobodyMigrated(rows: seq<Row>)
    ensures Pending(rows, {}) == rows
  {
    if rows != [] {
      NobodyMigrated(rows[..|rows| - 1]);
      assert rows == rows[..|rows| - 1] + [rows[|rows| - 1]];
    }
  }

  // Importing a complete list copies the old ledger onto the new one, user by user.
  lemma ListedAmounts(old1: Ledger, hs: seq<Holder>, old2: Ledger)
    requires Lists(old1, hs)
    ensures forall a :: At(Imported(old2, Rows(hs)).bought, a) == At(old2.bought, a) + At(old1.bought, a) &&
                        At(Imported(old2, Rows(hs)).credited, a) == At(old2.credited, a) + At(old1.credited, a)
  {
    var rows := Rows(hs);
    forall a
      ensures At(Imported(old2, rows).bought, a) == At(old2.bought, a) + At(old1.bought, a)
      ensures At(Imported(old2, rows).credited, a) == At(old2.credited, a) + At(old1.credited, a)
    {
      if i :| 0 <= i < |hs| && hs[i].row.user == a {
        assert hs[i] in hs;
        ImportedAt(old2, rows, i);
      } else {
        forall r <- rows ensures r.user != a { var i :| 0 <= i < |hs| && hs[i].row == r; }
        ImportedElsewhere(old2, rows, a);
        assert !Nonzero(old1, a) || HolderOf(old1, a) in hs;
      }
    }
  }
}
