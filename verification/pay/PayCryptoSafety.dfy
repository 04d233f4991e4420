// What every step of the crypto payment keeps, and what that means for a second payment.
module PayCryptoSafety {
  import opened Common
  import opened PayHold
  import opened PayTypes
  import opened PayAttempt
  import opened PayCrypto

  // A swap that no longer stands in the way of a new one.
  predicate Settled(w: World, i: IntentId)
    requires i in w.swaps
  {
    i in w.known || w.terminal || w.now > w.swaps[i].holdAt + HOLD_MAX_MS
  }

  // The phone remembers the swap: its hash is stored, and a record not older than it is there (or unreadable).
  predicate Covered(w: World, i: IntentId)
    requires i in w.swaps
  {
    i in w.hashes && (w.hold.Unreadable? || (w.hold.Hold? && w.hold.at >= w.swaps[i].holdAt))
  }

  ghost predicate WorldInv(w: World) {
    && w.swaps.Keys <= w.created && w.known <= w.created
    && (w.current.Some? ==> w.current.value in w.created)
    && (w.open.Some? ==> w.current == Some(w.open.value.id))
    && (w.hold.Hold? ==> w.hold.at <= w.now)
    && (forall i <- w.swaps :: Settled(w, i) || (w.current == Some(i) && Covered(w, i)))
    && (forall i <- w.swaps :: Dated(w.swaps[i], w.now))
  }

  predicate Dated(s: Swap, now: nat) {
    && s.claimedAt <= s.signedAt <= now && s.holdAt <= s.signedAt
    && (s.clean ==> s.claimedAt <= s.holdAt)
  }

  // Since a clean claim the record is gone, unreadable, or newer than the claim.
  predicate CleanSince(w: World, t: nat, clean: bool) {
    t <= w.now && (clean && w.hold.Hold? ==> t <= w.hold.at)
  }

  predicate Claims(pc: Pc) { pc.RunCreate? || pc.RunSign? || pc.RunAnswer? || pc.RunReport? }

  ghost predicate PcInv(w: World, pc: Pc) {
    match pc
    case RunCreate(t, clean) => w.starts > 0 && CleanSince(w, t, clean) && forall i <- w.swaps :: Settled(w, i)
    case RunSign(i, t, clean) => i in w.inFlight && w.current == Some(i) && i !in w.swaps && CleanSince(w, t, clean)
    case RunAnswer(i) => i in w.inFlight && w.current == Some(i)
    case RunReport(i, tries, _) => i in w.inFlight && w.current == Some(i) && tries < REPORT_TRIES
    case CheckReport(_, tries, _) => tries < REPORT_TRIES
    case _ => true
  }

  ghost predicate Inv(s: State) {
    && WorldInv(s.w)
    && (forall c <- s.calls :: PcInv(s.w, s.calls[c].pc))
    && (forall c <- s.calls, d <- s.calls :: Claims(s.calls[c].pc) && Claims(s.calls[d].pc) ==> c == d)
  }

  // ---------------------------------------------------------------- storage

  predicate SameButStorage(w: World, w': World) {
    w' == w.(hold := w'.hold, hashes := w'.hashes)
  }

  // A removal is harmless when every swap is settled; so are letting go of the lock and closing the intent.
  lemma ClearingSettled(w: World, w': World)
    requires WorldInv(w) && w' == w.(hold := w'.hold, hashes := w'.hashes, open := w'.open, inFlight := w'.inFlight)
    requires w'.hold == w.hold || w'.hold.NoHold?
    requires w'.open == w.open || w'.open.None?
    requires forall i <- w.swaps :: Settled(w, i)
    ensures WorldInv(w')
  {
  }

  lemma AllSettledOnceKnown(w: World, i: IntentId)
    requires WorldInv(w) && w.current == Some(i) && (i in w.swaps ==> Settled(w, i))
    ensures forall j <- w.swaps :: Settled(w, j)
  {
  }

  lemma RecordKeeps(w: World, i: IntentId)
    requires WorldInv(w) && w.open.Some? && w.open.value.id == i
    ensures WorldInv(Record(w, i))
    ensures forall j <- w.swaps :: Settled(Record(w, i), j)
  {
    hide Reduce;
  }

  lemma WriteKeeps(w: World, i: IntentId, io: Io)
    requires WorldInv(w)
    ensures WorldInv(WriteHold(w, i, io))
    ensures SameButStorage(w, WriteHold(w, i, io)) && WriteHold(w, i, io).hashes == w.hashes
  {
    hide Reduce;
  }

  // Reading the hold removes a record only once it is 24 h old, and then nothing it covered is left unsettled.
  lemma ReadKeeps(w: World, ok: bool, io: Io)
    requires WorldInv(w)
    ensures WorldInv(ReadWorld(w, ok, io)) && SameButStorage(w, ReadWorld(w, ok, io))
    ensures var h := ReadWorld(w, ok, io).hold;
            h != w.hold ==> h.NoHold? && w.hold.Hold? && w.now > w.hold.at + HOLD_MAX_MS
    ensures ReadWorld(w, ok, io).hold != w.hold ==> forall i <- w.swaps :: Settled(w, i)
  {
    hide Reduce;
  }

  // With no active record to be read and the read good, every earlier swap is settled: what lets a run start.
  lemma NoActiveHoldMeansSettled(w: World)
    requires WorldInv(w) && !w.hold.Unreadable? && !Active(w.hold, w.now)
    ensures forall i <- w.swaps :: Settled(w, i)
  {
  }

  // ---------------------------------------------------------------- steps outside any call

  lemma SettledLasts(w: World, w': World, i: IntentId)
    requires i in w.swaps && i in w'.swaps && w'.swaps[i] == w.swaps[i] && Settled(w, i)
    requires w.known <= w'.known && (w.terminal ==> w'.terminal) && w.now <= w'.now
    ensures Settled(w', i)
  {
  }

  predicate Outside(t: Step) {
    !t.Kill? && !t.Mount? && !t.AskCheck? && !t.AskRun? && !t.AskReset? && !t.Advance?
  }

  lemma OutsideKeeps(s: State, t: Step)
    requires Inv(s) && Enabled(s, t) && (Outside(t) || t.Kill?)
    ensures Inv(Next(s, t))
  {
    hide Reduce;
    var w, w' := s.w, NextWorld(s.w, t);
    forall i <- w.swaps ensures Settled(w, i) ==> Settled(w', i) {
      if Settled(w, i) { SettledLasts(w, w', i); }
    }
    assert WorldInv(w') by {
      if t.ServerLearns? { RecordKeeps(w, w.open.value.id); }
      else {
        forall i <- w'.swaps ensures Settled(w', i) || (w'.current == Some(i) && Covered(w', i)) {
          assert Settled(w, i) || Covered(w, i);
        }
      }
    }
    if !t.Kill? {
      forall c <- s.calls ensures PcInv(w', s.calls[c].pc) { assert PcInv(w, s.calls[c].pc); }
    }
  }

  // ---------------------------------------------------------------- steps of a call

  // Where a step of call c leaves the world, as the other calls see it.
  ghost predicate KeepsOthers(w: World, w': World) {
    && w.starts <= w'.starts && w.inFlight <= w'.inFlight && w'.current == w.current
    && w'.now == w.now && w.swaps == w'.swaps && w.known <= w'.known && (w.terminal ==> w'.terminal)
    && (w'.hold == w.hold || w'.hold.NoHold? || (w'.hold.Hold? && w'.hold.at == w.now))
  }

  lemma OthersKept(w: World, w': World, pc: Pc)
    requires PcInv(w, pc) && KeepsOthers(w, w')
    ensures PcInv(w', pc)
  {
  }

  // A step of a call that holds no claim, before or after, keeps every claim of the others.
  lemma UnclaimedStep(s: State, c: CallId, o: Out)
    requires Inv(s) && c in s.calls && !Claims(s.calls[c].pc)
    requires WorldInv(o.w) && KeepsOthers(s.w, o.w)
    requires o.pc.Some? ==> PcInv(o.w, o.pc.value) && !Claims(o.pc.value)
    ensures Inv(Install(s, c, s.calls[c].hook, o))
  {
    hide Reduce;
  }

  lemma ReportKeeps(w: World, i: IntentId, a: Answer, io: Io)
    requires WorldInv(w)
    requires (a.Taken? || (a.Lost? && a.taken)) ==> TakesHash(w, i)
    ensures WorldInv(ReportWorld(w, i, a, io)) && KeepsOthers(w, ReportWorld(w, i, a, io))
  {
    hide Reduce;
  }

  // The steps of a call that only looks: the world it leaves, and where it goes on.
  lemma LookKeeps(w: World, k: Hook, pc: Pc, a: Answer, io: Io)
    requires WorldInv(w) && (pc.MountRead? || pc.CheckRead? || pc.ResetRead?)
    ensures var o := Answered(w, k, pc, a, io);
            WorldInv(o.w) && KeepsOthers(w, o.w) && (o.pc.Some? ==> PcInv(o.w, o.pc.value) && !Claims(o.pc.value))
  {
    hide Reduce;
    ReadKeeps(w, a.StorageRead?, io);
  }

  lemma OpenAnswerKeeps(w: World, k: Hook, pc: Pc, a: Answer, io: Io)
    requires WorldInv(w) && pc.CheckOpen?
    ensures var o := OnCheckOpen(w, k, pc, a.OpenIs?, io);
            WorldInv(o.w) && KeepsOthers(w, o.w) && (o.pc.Some? ==> PcInv(o.w, o.pc.value) && !Claims(o.pc.value))
  {
    hide Reduce;
    var o := OnCheckOpen(w, k, pc, a.OpenIs?, io);
    if a.OpenIs? && w.open.Some? && w.open.value.id in w.known {
      AllSettledOnceKnown(w, w.open.value.id);
      ClearingSettled(w, o.w);
    } else if pc.held.Some? {
      WriteKeeps(w, pc.held.value, io);
    }
  }

  lemma HashReadKeeps(w: World, k: Hook, pc: Pc, a: Answer, io: Io)
    requires WorldInv(w) && pc.CheckHash?
    ensures var o := OnCheckHash(w, k, pc, a.HashIs?, io);
            WorldInv(o.w) && KeepsOthers(w, o.w) && (o.pc.Some? ==> PcInv(o.w, o.pc.value) && !Claims(o.pc.value))
  {
    hide Reduce;
  }

  lemma CheckReportKeeps(w: World, k: Hook, pc: Pc, a: Answer, io: Io)
    requires WorldInv(w) && pc.CheckReport? && CanAnswer(w, pc, a, io)
    ensures var o := OnCheckReport(w, k, pc, a, io);
            WorldInv(o.w) && KeepsOthers(w, o.w) && (o.pc.Some? ==> PcInv(o.w, o.pc.value) && !Claims(o.pc.value))
  {
    hide Reduce;
    ReportKeeps(w, pc.intent, a, io);
    WriteKeeps(ReportWorld(w, pc.intent, a, io), pc.intent, io);
  }

  lemma CheckStepKeeps(s: State, c: CallId, a: Answer, io: Io)
    requires Inv(s) && Enabled(s, Advance(c, a, io)) && !Claims(s.calls[c].pc) && !s.calls[c].pc.RunRead?
    ensures Inv(Next(s, Advance(c, a, io)))
  {
    hide Reduce;
    var k, pc := s.hooks[s.calls[c].hook], s.calls[c].pc;
    match pc {
      case CheckOpen(_, _, _) => OpenAnswerKeeps(s.w, k, pc, a, io);
      case CheckHash(_, _, _) => HashReadKeeps(s.w, k, pc, a, io);
      case CheckReport(_, _, _) => CheckReportKeeps(s.w, k, pc, a, io);
      case _ => LookKeeps(s.w, k, pc, a, io);
    }
    UnclaimedStep(s, c, Answered(s.w, k, pc, a, io));
  }

  // With no active record every earlier swap is settled when the sale lock is claimed, and no sale runs.
  lemma RunReadClaims(w: World, k: Hook, a: Answer, io: Io)
    requires WorldInv(w)
    ensures var o := OnRunRead(w, k, a.StorageRead?, a.StorageRead? && a.evm, io);
            WorldInv(o.w) && KeepsOthers(w, o.w) && (o.pc.Some? ==> PcInv(o.w, o.pc.value)) &&
            (o.pc.Some? && Claims(o.pc.value) ==> o.pc.value.RunCreate? && !AnySaleRunning(w))
  {
    hide Reduce, ReadWorld;
    var o := OnRunRead(w, k, a.StorageRead?, a.StorageRead? && a.evm, io);
    ReadKeeps(w, a.StorageRead?, io);
    if o.pc.Some? && o.pc.value.RunCreate? {
      NoActiveHoldMeansSettled(w);
      forall i <- w.swaps ensures Settled(o.w, i) { SettledLasts(w, o.w, i); }
    }
  }

  lemma RunReadKeeps(s: State, c: CallId, a: Answer, io: Io)
    requires Inv(s) && Enabled(s, Advance(c, a, io)) && s.calls[c].pc.RunRead?
    ensures Inv(Next(s, Advance(c, a, io)))
  {
    hide Reduce, OnRunRead, KeepsOthers, WorldInv;
    var w, k := s.w, s.hooks[s.calls[c].hook];
    var o := OnRunRead(w, k, a.StorageRead?, a.StorageRead? && a.evm, io);
    assert Next(s, Advance(c, a, io)) == Install(s, c, s.calls[c].hook, o);
    RunReadClaims(w, k, a, io);
    if o.pc.Some? && Claims(o.pc.value) {
      forall d <- s.calls ensures !Claims(s.calls[d].pc) { assert PcInv(w, s.calls[d].pc); }
      var s' := Install(s, c, s.calls[c].hook, o);
      forall d <- s'.calls ensures PcInv(s'.w, s'.calls[d].pc) {
        if d != c { OthersKept(w, o.w, s.calls[d].pc); }
      }
    } else {
      UnclaimedStep(s, c, o);
    }
  }

  // The claiming call steps: no other call claims, so the others are free of the world.
  lemma ClaimedStep(s: State, c: CallId, o: Out)
    requires Inv(s) && c in s.calls && Claims(s.calls[c].pc)
    requires WorldInv(o.w)
    requires o.pc.Some? ==> PcInv(o.w, o.pc.value)
    ensures Inv(Install(s, c, s.calls[c].hook, o))
  {
    hide Reduce;
  }

  lemma RunCreateKeeps(s: State, c: CallId, a: Answer, io: Io)
    requires Inv(s) && Enabled(s, Advance(c, a, io)) && s.calls[c].pc.RunCreate?
    ensures Inv(Next(s, Advance(c, a, io)))
  {
    hide Reduce, WorldInv, OnRunCreate;
    var w, k, pc := s.w, s.hooks[s.calls[c].hook], s.calls[c].pc;
    var o := OnRunCreate(w, k, pc, a);
    assert PcInv(w, pc);
    CreatedKeeps(w, k, pc, a, io);
    ClaimedStep(s, c, o);
  }

  lemma CreatedKeeps(w: World, k: Hook, pc: Pc, a: Answer, io: Io)
    requires WorldInv(w) && pc.RunCreate? && PcInv(w, pc) && CanAnswer(w, pc, a, io)
    ensures var o := OnRunCreate(w, k, pc, a); WorldInv(o.w) && (o.pc.Some? ==> PcInv(o.w, o.pc.value))
  {
    hide Reduce;
  }

  lemma SigningKeeps(w: World, k: Hook, pc: Pc, io: Io)
    requires WorldInv(w) && pc.RunSign? && PcInv(w, pc) && CanAnswer(w, pc, Signed, io)
    ensures var o := OnRunSign(w, k, pc, Signed, io); WorldInv(o.w) && PcInv(o.w, o.pc.value)
  {
    hide Reduce;
    var o, i := OnRunSign(w, k, pc, Signed, io), pc.intent;
    AllSettledOnceKnown(w, i);
    assert o.w.swaps == w.swaps[i := o.w.swaps[i]];
    assert Covered(o.w, i) && Dated(o.w.swaps[i], o.w.now);
    forall j <- o.w.swaps ensures Settled(o.w, j) || (o.w.current == Some(j) && Covered(o.w, j)) {
      if j != i { SettledLasts(w, o.w, j); }
    }
    forall j <- o.w.swaps ensures Dated(o.w.swaps[j], o.w.now) {
      if j != i { assert Dated(w.swaps[j], w.now); }
    }
  }

  lemma NotSignedKeeps(w: World, k: Hook, pc: Pc, a: Answer, io: Io)
    requires WorldInv(w) && pc.RunSign? && PcInv(w, pc) && (a.NotSigned? || a.NotSaved?)
    ensures WorldInv(OnRunSign(w, k, pc, a, io).w)
  {
    hide Reduce;
    AllSettledOnceKnown(w, pc.intent);
    ClearingSettled(w, OnRunSign(w, k, pc, a, io).w);
  }

  lemma RunSignKeeps(s: State, c: CallId, a: Answer, io: Io)
    requires Inv(s) && Enabled(s, Advance(c, a, io)) && s.calls[c].pc.RunSign?
    ensures Inv(Next(s, Advance(c, a, io)))
  {
    hide Reduce;
    var k, pc := s.hooks[s.calls[c].hook], s.calls[c].pc;
    assert PcInv(s.w, pc);
    if a.Signed? { SigningKeeps(s.w, k, pc, io); } else { NotSignedKeeps(s.w, k, pc, a, io); }
    ClaimedStep(s, c, OnRunSign(s.w, k, pc, a, io));
  }

  lemma RunAnswerKeeps(s: State, c: CallId, a: Answer, io: Io)
    requires Inv(s) && Enabled(s, Advance(c, a, io)) && s.calls[c].pc.RunAnswer?
    ensures Inv(Next(s, Advance(c, a, io)))
  {
    hide Reduce;
    var w, k, pc := s.w, s.hooks[s.calls[c].hook], s.calls[c].pc;
    var o := OnRunAnswer(w, k, pc, a, io);
    assert PcInv(w, pc);
    if a.NotSent? {
      forall j <- o.w.swaps ensures Settled(o.w, j) && Dated(o.w.swaps[j], o.w.now) {
        assert j != pc.intent && j in w.swaps;
        assert Settled(w, j) && Dated(w.swaps[j], w.now);
      }
    }
    ClaimedStep(s, c, o);
  }

  lemma RunReportKeeps(s: State, c: CallId, a: Answer, io: Io)
    requires Inv(s) && Enabled(s, Advance(c, a, io)) && s.calls[c].pc.RunReport?
    ensures Inv(Next(s, Advance(c, a, io)))
  {
    hide Reduce;
    var w, k, pc := s.w, s.hooks[s.calls[c].hook], s.calls[c].pc;
    var o := OnRunReport(w, k, pc, a, io);
    assert PcInv(w, pc);
    ReportKeeps(w, pc.intent, a, io);
    var w1 := ReportWorld(w, pc.intent, a, io);
    WriteKeeps(w1, pc.intent, io);
    if o.pc.None? {
      var w2 := if AfterReport(pc.tries, a).Reported? then w1 else WriteHold(w1, pc.intent, io);
      assert o.w == Release(w2, pc.intent);
      forall j <- o.w.swaps ensures Settled(o.w, j) || (o.w.current == Some(j) && Covered(o.w, j)) {
        assert Settled(w2, j) || Covered(w2, j);
      }
    }
    ClaimedStep(s, c, o);
  }

  lemma AskKeeps(s: State, t: Step)
    requires Inv(s) && Enabled(s, t) && (t.Mount? || t.AskCheck? || t.AskRun? || t.AskReset?)
    ensures Inv(Next(s, t))
  {
    hide Reduce;
  }

  lemma StepKeepsInv(s: State, t: Step)
    requires Inv(s) && Enabled(s, t)
    ensures Inv(Next(s, t))
  {
    hide Reduce;
    match t
    case Advance(c, a, io) =>
      match s.calls[c].pc {
        case RunRead => RunReadKeeps(s, c, a, io);
        case RunCreate(_, _) => RunCreateKeeps(s, c, a, io);
        case RunSign(_, _, _) => RunSignKeeps(s, c, a, io);
        case RunAnswer(_) => RunAnswerKeeps(s, c, a, io);
        case RunReport(_, _, _) => RunReportKeeps(s, c, a, io);
        case _ => CheckStepKeeps(s, c, a, io);
      }
    case Mount(_, _) => AskKeeps(s, t);
    case AskCheck(_, _, _) => AskKeeps(s, t);
    case AskRun(_, _) => AskKeeps(s, t);
    case AskReset(_, _) => AskKeeps(s, t);
    case _ => OutsideKeeps(s, t);
  }

  lemma {:induction false} PathKeepsInv(ss: seq<State>, ts: seq<Step>)
    requires Path(ss, ts) && Inv(ss[0])
    ensures Inv(ss[|ts|])
    decreases |ts|
  {
    if ts != [] {
      var n := |ts| - 1;
      PathKeepsInv(ss[..n + 1], ts[..n]);
      StepKeepsInv(ss[n], ts[n]);
    }
  }

  lemma ReachableInv(s: State)
    requires Reachable(s)
    ensures Inv(s)
  {
    var s0 :| Init(s0) && Leads(s0, s);
    var ss, ts :| Path(ss, ts) && ss[0] == s0 && ss[|ts|] == s;
    PathKeepsInv(ss, ts);
  }

  // ---------------------------------------------------------------- the theorems

  predicate Broadcasts(s: State, t: Step) {
    t.Advance? && t.c in s.calls && s.calls[t.c].pc.RunSign? && t.a.Signed?
  }

  // What is promised of a swap before another one goes out: the server has it, the payment has ended, or 24 h have
  // passed since it was signed.
  predicate Safe(w: World, i: IntentId)
    requires i in w.swaps
  {
    i in w.known || w.terminal || w.now > w.swaps[i].signedAt + HOLD_MAX_MS
  }

  // The record that covers the swap was not written at its signature but before.
  predicate UnderOlderRecord(w: World, i: IntentId)
    requires i in w.swaps
  {
    w.swaps[i].holdAt < w.swaps[i].signedAt
  }

  // No double payment. In every reachable state, when a swap is signed and handed over, it is a new one, and every
  // other swap of the payment ever handed over is safe -- whatever the attempt flags of the screens say -- but for
  // one signed under an older record, which counts its 24 h from that record.
  lemma NoDoublePayment(s: State, t: Step)
    requires Reachable(s) && Enabled(s, t) && Broadcasts(s, t)
    ensures var i := s.calls[t.c].pc.intent;
            i !in s.w.swaps && Next(s, t).w.swaps.Keys == s.w.swaps.Keys + {i}
    ensures forall j <- s.w.swaps :: Settled(s.w, j) && (Safe(s.w, j) || UnderOlderRecord(s.w, j))
  {
    hide Reduce;
    ReachableInv(s);
    var pc := s.calls[t.c].pc;
    assert PcInv(s.w, pc);
    AllSettledOnceKnown(s.w, pc.intent);
    forall j <- s.w.swaps ensures Settled(s.w, j) && (Safe(s.w, j) || UnderOlderRecord(s.w, j)) {
      assert Dated(s.w.swaps[j], s.w.now);
    }
  }

  // A swap is signed under its own record exactly when the store is empty at its signature (or written that instant).
  lemma OwnRecordWhenEmpty(s: State, t: Step)
    requires Reachable(s) && Enabled(s, t) && Broadcasts(s, t)
    ensures var i := s.calls[t.c].pc.intent;
            !UnderOlderRecord(Next(s, t).w, i) <==> s.w.hold.NoHold? || s.w.hold.at == s.w.now
  {
    hide Reduce;
    ReachableInv(s);
  }

  predicate RanOut(w: World, i: IntentId)
    requires i in w.swaps
  {
    UnderOlderRecord(w, i) && w.now > w.swaps[i].holdAt + HOLD_MAX_MS
  }

  // Two swaps that are not safe are out only when one of them went out under an older record, by now over 24 h old;
  // any other unsafe swap is remembered: the phone has its hash and an active or unreadable hold.
  lemma OneSwapOutAndRemembered(s: State, i: IntentId, j: IntentId)
    requires Reachable(s) && i in s.w.swaps && j in s.w.swaps
    requires !Safe(s.w, i) && !Safe(s.w, j)
    ensures i == j || RanOut(s.w, i) || RanOut(s.w, j)
    ensures RanOut(s.w, i) || (Covered(s.w, i) && (s.w.hold.Unreadable? || Active(s.w.hold, s.w.now)))
  {
    ReachableInv(s);
    forall k <- s.w.swaps ensures Dated(s.w.swaps[k], s.w.now) {}
  }

  // After a claim that left the store empty, the covering record is from between that claim and the signature.
  lemma CleanClaimCountsFromClaim(s: State, i: IntentId)
    requires Reachable(s) && i in s.w.swaps && s.w.swaps[i].clean
    ensures s.w.swaps[i].claimedAt <= s.w.swaps[i].holdAt <= s.w.swaps[i].signedAt
  {
    ReachableInv(s);
    assert Dated(s.w.swaps[i], s.w.now);
  }

  function Later(w: World, ms: nat): World { w.(now := w.now + ms) }

  // The new swap's record protects it for a full 24 h from its signature exactly when the store was empty at the
  // signature (or written that instant).
  lemma NewSwapProtected(s: State, t: Step)
    requires Reachable(s) && Enabled(s, t) && Broadcasts(s, t) && !s.w.terminal
    requires s.calls[t.c].pc.intent !in s.w.known
    ensures var i, w := s.calls[t.c].pc.intent, Next(s, t).w;
            (forall ms: nat :: ms <= HOLD_MAX_MS ==> !Settled(Later(w, ms), i)) <==>
              s.w.hold.NoHold? || s.w.hold.at == s.w.now
  {
    hide Reduce;
    ReachableInv(s);
    var i, w := s.calls[t.c].pc.intent, Next(s, t).w;
    if UnderOlderRecord(w, i) { assert Settled(Later(w, HOLD_MAX_MS), i); }
  }

  // Hold lifetime: the record goes only in a step after which every swap handed over is settled.
  lemma HoldGoesOnlyWhenSettled(s: State, t: Step)
    requires Reachable(s) && Enabled(s, t)
    requires !s.w.hold.NoHold? && Next(s, t).w.hold.NoHold?
    ensures forall i <- Next(s, t).w.swaps :: Settled(Next(s, t).w, i)
  {
    hide Reduce;
    ReachableInv(s);
    StepKeepsInv(s, t);
    var w' := Next(s, t).w;
    forall i <- w'.swaps ensures Settled(w', i) {
      assert Settled(w', i) || Covered(w', i);
    }
  }

  // A refusal, a lost answer or an unreachable server never removes or rewrites a record.
  lemma RefusalKeepsHold(s: State, t: Step)
    requires Enabled(s, t) && t.Advance?
    requires t.a.Refused? || t.a.Lost? || t.a.NoAnswer? || t.a.InProgress? || t.a.StorageFailed?
    requires !s.w.hold.NoHold?
    ensures Next(s, t).w.hold == s.w.hold
  {
    hide Reduce;
  }
}
