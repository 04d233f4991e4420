// What the payer's screen can be left showing: an attempt in flight, an idle one, and which intent a hold names.
module PayCryptoScreens {
  import opened Common
  import opened PayHold
  import opened PayTypes
  import opened PayAttempt
  import opened PayCrypto
  import opened PayCryptoSafety

  // reportSwap: at most three server calls. It stops at the first answer that is the server's word.
  method ReportSwap(answers: seq<Answer>) returns (r: Report, used: nat)
    requires |answers| >= REPORT_TRIES
    requires forall a <- answers :: a.Taken? || a.Refused? || a.Lost?
    ensures 1 <= used <= 3
    ensures r.Reported? <==> answers[used - 1].Taken?
    ensures r == NotReported(Rejected) <==> answers[used - 1].Refused?
    ensures r == NotReported(Unreachable) <==> used == 3 && answers[used - 1].Lost?
    // The loop is the machine's run of report steps.
    ensures r == AfterReport(used - 1, answers[used - 1])
    ensures forall i :: 0 <= i < used - 1 ==> AfterReport(i, answers[i]).Again?
  {
    used := 0;
    for i := 0 to REPORT_TRIES
      invariant used == i
      invariant forall j :: 0 <= j < i ==> answers[j].Lost?
    {
      used := i + 1;
      if answers[i].Taken? { return Reported, used; }
      if answers[i].Refused? { return NotReported(Rejected), used; }
    }
    r := NotReported(Unreachable);
  }

  // ---------------------------------------------------------------- calls and their screens

  predicate Checks(pc: Pc) { pc.CheckRead? || pc.CheckOpen? || pc.CheckHash? || pc.CheckReport? }

  predicate Works(pc: Pc) { Checks(pc) || pc.RunRead? || Claims(pc) }

  ghost predicate ScreenInv(s: State) {
    && (forall c <- s.calls :: s.calls[c].hook in s.hooks)
    && (forall c <- s.calls :: Checks(s.calls[c].pc) ==> s.hooks[s.calls[c].hook].checking)
    && (forall c <- s.calls, d <- s.calls ::
          Checks(s.calls[c].pc) && Checks(s.calls[d].pc) && s.calls[c].hook == s.calls[d].hook ==> c == d)
    && (forall h <- s.hooks :: s.hooks[h].checking ==>
        exists c <- s.calls :: s.calls[c].hook == h && Checks(s.calls[c].pc))
  }

  // How a call's step treats the `checking` flag: set exactly while the call checks, else left alone.
  predicate FlagFollows(k: Hook, pc: Option<Pc>, o: Out) {
    if pc.Some? && Checks(pc.value) then o.k.checking == o.pc.Some? && (o.pc.Some? ==> Checks(o.pc.value))
    else if o.pc.Some? && Checks(o.pc.value) then o.k.checking && !k.checking
    else o.k.checking == k.checking
  }

  lemma StartedCheckFlag(w: World, k: Hook, explicit: bool, after: After)
    ensures var o := StartCheck(w, k, explicit, after);
            FlagFollows(k, None, o) && (o.pc.Some? ==> Checks(o.pc.value))
  {
    hide Reduce;
  }

  lemma ReadFlag(w: World, k: Hook, pc: Pc, a: Answer, io: Io)
    requires CanAnswer(w, pc, a, io) && (pc.MountRead? || pc.RunRead? || pc.ResetRead?)
    ensures FlagFollows(k, Some(pc), Answered(w, k, pc, a, io))
  {
    hide Reduce, StartCheck, ReadWorld;
    var k' := ReadHook(k, ReadResult(w, k, a.StorageRead?));
    var w' := ReadWorld(w, a.StorageRead?, io);
    StartedCheckFlag(w', k', false, AfterMount);
    StartedCheckFlag(w', k', false, AfterRun);
    StartedCheckFlag(w', k', false, Nothing);
  }

  lemma CheckFlag(w: World, k: Hook, pc: Pc, a: Answer, io: Io)
    requires CanAnswer(w, pc, a, io) && Checks(pc) && k.checking
    ensures FlagFollows(k, Some(pc), Answered(w, k, pc, a, io))
  {
    hide Reduce, ReadWorld, WriteHold, Lift, ReportWorld;
  }

  lemma ClaimFlag(w: World, k: Hook, pc: Pc, a: Answer, io: Io)
    requires CanAnswer(w, pc, a, io) && Claims(pc)
    ensures FlagFollows(k, Some(pc), Answered(w, k, pc, a, io))
  {
    hide Reduce, WriteHold, Lift, Abandon, Release, ReportWorld, OpenNew, EndStart;
  }

  lemma InstallKeepsScreens(s: State, c: CallId, h: HookId, o: Out)
    requires ScreenInv(s) && h in s.hooks && (c in s.calls ==> s.calls[c].hook == h)
    requires FlagFollows(s.hooks[h], if c in s.calls then Some(s.calls[c].pc) else None, o)
    ensures ScreenInv(Install(s, c, h, o))
  {
    hide Reduce;
    var s' := Install(s, c, h, o);
    forall h' <- s'.hooks | s'.hooks[h'].checking
      ensures exists d <- s'.calls :: s'.calls[d].hook == h' && Checks(s'.calls[d].pc)
    {
      if h' == h && o.pc.Some? && Checks(o.pc.value) {
        assert s'.calls[c].hook == h;
      } else {
        assert s.hooks[h'].checking;
        var d :| d in s.calls && s.calls[d].hook == h' && Checks(s.calls[d].pc);
        assert d in s'.calls && s'.calls[d] == s.calls[d];
      }
    }
  }

  lemma CallKeepsScreens(s: State, c: CallId, a: Answer, io: Io)
    requires ScreenInv(s) && Enabled(s, Advance(c, a, io))
    ensures ScreenInv(Next(s, Advance(c, a, io)))
  {
    hide Reduce, Answered;
    var h, pc := s.calls[c].hook, s.calls[c].pc;
    if Checks(pc) { CheckFlag(s.w, s.hooks[h], pc, a, io); }
    else if Claims(pc) { ClaimFlag(s.w, s.hooks[h], pc, a, io); }
    else { ReadFlag(s.w, s.hooks[h], pc, a, io); }
    InstallKeepsScreens(s, c, h, Answered(s.w, s.hooks[h], pc, a, io));
  }

  lemma StepKeepsScreens(s: State, t: Step)
    requires ScreenInv(s) && Enabled(s, t)
    ensures ScreenInv(Next(s, t))
  {
    hide Reduce, Answered, StartCheck;
    match t
    case Advance(c, a, io) => CallKeepsScreens(s, c, a, io);
    case AskCheck(c, h, explicit) =>
      StartedCheckFlag(s.w, s.hooks[h], explicit, Nothing);
      InstallKeepsScreens(s, c, h, StartCheck(s.w, s.hooks[h], explicit, Nothing));
    case AskRun(c, h) =>
      var k' := Dispatch(s.hooks[h], Begin);
      InstallKeepsScreens(s, c, h, Out(s.w, k', if k'.attempt.Paying? then Some(RunRead) else None));
    case AskReset(c, h) => InstallKeepsScreens(s, c, h, Out(s.w, s.hooks[h], Some(ResetRead)));
    case Mount(c, h) => MountKeepsScreens(s, c, h);
    case _ =>
  }

  lemma MountKeepsScreens(s: State, c: CallId, h: HookId)
    requires ScreenInv(s) && Enabled(s, Mount(c, h))
    ensures ScreenInv(Next(s, Mount(c, h)))
  {
    var s' := Next(s, Mount(c, h));
    forall h' <- s'.hooks | s'.hooks[h'].checking
      ensures exists d <- s'.calls :: s'.calls[d].hook == h' && Checks(s'.calls[d].pc)
    {
      var d :| d in s.calls && s.calls[d].hook == h' && Checks(s.calls[d].pc);
      assert s'.calls[d] == s.calls[d];
    }
  }

  // ---------------------------------------------------------------- an attempt in flight is being worked on

  ghost predicate Busy(s: State, h: HookId) {
    exists c <- s.calls :: s.calls[c].hook == h && Works(s.calls[c].pc)
  }

  ghost predicate NotStranded(s: State, h: HookId) {
    h in s.hooks && s.hooks[h].attempt.Paying? ==> Busy(s, h)
  }

  // All the machine of the attempt that matters here: fails and waits end it, a reset leaves it in flight, and
  // only a reset makes it idle.
  lemma AttemptFacts()
    ensures forall a: Attempt, e: Event :: e.Fail? || e.Handed? ==> !Reduce(a, e).Paying?
    ensures forall a: Attempt :: Reduce(a, Reset).Paying? == a.Paying?
    ensures forall a: Attempt, e: Event :: !a.Idle? && !e.Reset? ==> !Reduce(a, e).Idle?
  {
  }

  lemma ReadLeaves(w: World, k: Hook, ok: bool)
    ensures var r := ReadResult(w, k, ok);
            ReadHook(k, r).attempt.Paying? <==> k.attempt.Paying? && !r.CouldNotRead?
    ensures ReadHook(k, ReadResult(w, k, ok)).checking == k.checking
  {
    hide Reduce;
    AttemptFacts();
  }

  predicate LeavesPaying(w: World, k: Hook, pc: Pc, a: Answer) {
    || (pc.RunCreate? && (a.InProgress? || a.CreatedUnheard?) && k.checking && k.attempt.Paying?)
    || (pc.CheckRead? && ReadResult(w, k, a.StorageRead?) == None_(true) && pc.after != AfterRun && k.attempt.Paying?)
  }

  lemma EndedOpenNotPaying(w: World, k: Hook, pc: Pc, a: Answer, io: Io)
    requires pc.CheckOpen? && OnCheckOpen(w, k, pc, a.OpenIs?, io).pc.None?
    ensures !OnCheckOpen(w, k, pc, a.OpenIs?, io).k.attempt.Paying?
  {
    hide Reduce;
    AttemptFacts();
  }

  lemma EndedReportNotPaying(w: World, k: Hook, pc: Pc, a: Answer, io: Io)
    requires pc.CheckReport? && OnCheckReport(w, k, pc, a, io).pc.None?
    ensures !OnCheckReport(w, k, pc, a, io).k.attempt.Paying?
  {
    hide Reduce;
    AttemptFacts();
  }

  lemma EndedCheckNotPaying(w: World, k: Hook, pc: Pc, a: Answer, io: Io)
    requires CanAnswer(w, pc, a, io) && Checks(pc) && !pc.CheckRead?
    requires Answered(w, k, pc, a, io).pc.None?
    ensures !Answered(w, k, pc, a, io).k.attempt.Paying?
  {
    hide Reduce;
    AttemptFacts();
    match pc {
      case CheckOpen(_, _, _) => EndedOpenNotPaying(w, k, pc, a, io);
      case CheckReport(_, _, _) => EndedReportNotPaying(w, k, pc, a, io);
      case CheckHash(_, _, _) =>
    }
  }

  lemma EndedReadNotPaying(w: World, k: Hook, pc: Pc, a: Answer, io: Io)
    requires CanAnswer(w, pc, a, io) && (pc.CheckRead? || pc.RunRead?)
    requires Answered(w, k, pc, a, io).pc.None?
    ensures Answered(w, k, pc, a, io).k.attempt.Paying? <==> LeavesPaying(w, k, pc, a)
  {
    hide Reduce;
    AttemptFacts();
    ReadLeaves(w, k, a.StorageRead?);
  }

  lemma EndedRunNotPaying(w: World, k: Hook, pc: Pc, a: Answer, io: Io)
    requires CanAnswer(w, pc, a, io) && Claims(pc)
    requires Answered(w, k, pc, a, io).pc.None?
    ensures Answered(w, k, pc, a, io).k.attempt.Paying? <==> LeavesPaying(w, k, pc, a)
  {
    hide Reduce, WriteHold, Lift, Abandon, Release, ReportWorld, OpenNew, EndStart;
    AttemptFacts();
    match pc {
      case RunCreate(_, _) =>
      case RunSign(_, _, _) =>
      case RunAnswer(_) =>
      case RunReport(_, _, _) =>
    }
  }

  // A call that was not working starts no attempt.
  lemma LookStartsNothing(w: World, k: Hook, pc: Pc, a: Answer, io: Io)
    requires CanAnswer(w, pc, a, io) && !Works(pc) && Answered(w, k, pc, a, io).pc.None?
    ensures Answered(w, k, pc, a, io).k.attempt.Paying? ==> k.attempt.Paying?
  {
    hide Reduce;
    AttemptFacts();
    ReadLeaves(w, k, a.StorageRead?);
  }

  // An attempt in flight with a storage doubt has its own fresh read still to come: a failed read ends the attempt,
  // and only a run starts one.
  ghost predicate DoubtInv(s: State) {
    forall h <- s.hooks :: s.hooks[h].attempt.Paying? && s.hooks[h].storageUnknown ==> RunToRead(s, h)
  }

  ghost predicate RunToRead(s: State, h: HookId) {
    exists c <- s.calls :: s.calls[c].hook == h && s.calls[c].pc.RunRead?
  }

  lemma ReadDoubt(w: World, k: Hook, pc: Pc, a: Answer, io: Io)
    requires CanAnswer(w, pc, a, io) && (pc.MountRead? || pc.CheckRead? || pc.RunRead? || pc.ResetRead?)
    ensures var k' := Answered(w, k, pc, a, io).k; !(k'.attempt.Paying? && k'.storageUnknown)
  {
    hide Reduce, ReadWorld;
    AttemptFacts();
  }

  lemma WorkDoubt(w: World, k: Hook, pc: Pc, a: Answer, io: Io)
    requires CanAnswer(w, pc, a, io) && (Claims(pc) || pc.CheckOpen? || pc.CheckHash? || pc.CheckReport?)
    ensures var k' := Answered(w, k, pc, a, io).k; k'.attempt.Paying? ==>
        k.attempt.Paying? && k'.storageUnknown == k.storageUnknown
  {
    hide Reduce, WriteHold, Lift, Abandon, Release, ReportWorld, OpenNew, EndStart;
    AttemptFacts();
    if Claims(pc) {
      match pc {
        case RunCreate(_, _) =>
        case RunSign(_, _, _) =>
        case RunAnswer(_) =>
        case RunReport(_, _, _) =>
      }
    } else {
      CheckDoubt(w, k, pc, a, io);
    }
  }

  lemma CheckDoubt(w: World, k: Hook, pc: Pc, a: Answer, io: Io)
    requires CanAnswer(w, pc, a, io) && (pc.CheckOpen? || pc.CheckHash? || pc.CheckReport?)
    ensures var k' := Answered(w, k, pc, a, io).k; k'.attempt.Paying? ==>
        k.attempt.Paying? && k'.storageUnknown == k.storageUnknown
  {
    hide Reduce, WriteHold, Lift, ReportWorld;
    AttemptFacts();
    match pc {
      case CheckOpen(_, _, _) =>
      case CheckHash(_, _, _) =>
      case CheckReport(_, _, _) =>
    }
  }

  lemma StepKeepsDoubt(s: State, t: Step)
    requires DoubtInv(s) && Enabled(s, t)
    ensures DoubtInv(Next(s, t))
  {
    hide Reduce, Answered;
    AttemptFacts();
    var s' := Next(s, t);
    if t.Advance? {
      var call := s.calls[t.c];
      var k := s.hooks[call.hook];
      if Claims(call.pc) || call.pc.CheckOpen? || call.pc.CheckHash? || call.pc.CheckReport? {
        WorkDoubt(s.w, k, call.pc, t.a, t.io);
      } else {
        ReadDoubt(s.w, k, call.pc, t.a, t.io);
      }
    }
    forall h <- s'.hooks | s'.hooks[h].attempt.Paying? && s'.hooks[h].storageUnknown ensures RunToRead(s', h) {
      if t.AskRun? && t.h == h && !s.hooks[h].attempt.Paying? {
        assert s'.calls[t.c].hook == h;
      } else {
        var d :| d in s.calls && s.calls[d].hook == h && s.calls[d].pc.RunRead?;
        assert s'.calls[d] == s.calls[d];
      }
    }
  }

  lemma AnswerStrandsNobody(s: State, c: CallId, a: Answer, io: Io, h: HookId)
    requires ScreenInv(s) && DoubtInv(s) && Enabled(s, Advance(c, a, io)) && NotStranded(s, h)
    ensures NotStranded(Next(s, Advance(c, a, io)), h)
  {
    hide Reduce, Answered, ScreenInv, DoubtInv;
    var s' := Next(s, Advance(c, a, io));
    if h != s.calls[c].hook {
      if h in s.hooks && s.hooks[h].attempt.Paying? {
        var d :| d in s.calls && s.calls[d].hook == h && Works(s.calls[d].pc);
        assert s'.calls[d] == s.calls[d];
      }
    } else if Answered(s.w, s.hooks[h], s.calls[c].pc, a, io).pc.Some? {
      AdvanceBusy(s, c, a, io);
    } else {
      AdvanceEnded(s, c, a, io);
    }
  }

  // Every authorised run leaves `paying`: whatever is interleaved, after any step an attempt in flight has a run or
  // a check at work on its screen.
  lemma StepStrandsNobody(s: State, t: Step, h: HookId)
    requires ScreenInv(s) && DoubtInv(s) && Enabled(s, t) && NotStranded(s, h)
    ensures NotStranded(Next(s, t), h)
  {
    hide Reduce, Answered, ScreenInv, DoubtInv;
    var s' := Next(s, t);
    match t
    case Advance(c, a, io) => AnswerStrandsNobody(s, c, a, io, h);
    case AskRun(c, h') =>
      if h' == h && s'.hooks[h].attempt.Paying? && !s.hooks[h].attempt.Paying? {
        assert s'.calls[c].hook == h && Works(s'.calls[c].pc);
      } else if h in s'.hooks && s'.hooks[h].attempt.Paying? {
        KeptBusy(s, s', h);
      }
    case Kill =>
    case _ =>
      if h in s.hooks && s.hooks[h].attempt.Paying? { KeptBusy(s, s', h); }
  }

  lemma KeptBusy(s: State, s': State, h: HookId)
    requires Busy(s, h)
    requires forall d <- s.calls :: d in s'.calls && s'.calls[d] == s.calls[d]
    ensures Busy(s', h)
  {
  }

  // A call that goes on goes on working.
  lemma GoesOnWorking(w: World, k: Hook, pc: Pc, a: Answer, io: Io)
    requires CanAnswer(w, pc, a, io) && Answered(w, k, pc, a, io).pc.Some?
    ensures Works(Answered(w, k, pc, a, io).pc.value)
  {
    hide Reduce, ReadWorld, WriteHold, Lift, Abandon, Release, ReportWorld, OpenNew, EndStart;
  }

  lemma AdvanceBusy(s: State, c: CallId, a: Answer, io: Io)
    requires ScreenInv(s) && Enabled(s, Advance(c, a, io)) && NotStranded(s, s.calls[c].hook)
    requires Answered(s.w, s.hooks[s.calls[c].hook], s.calls[c].pc, a, io).pc.Some?
    ensures NotStranded(Next(s, Advance(c, a, io)), s.calls[c].hook)
  {
    hide Reduce, Answered;
    var h, pc := s.calls[c].hook, s.calls[c].pc;
    GoesOnWorking(s.w, s.hooks[h], pc, a, io);
    var s' := Next(s, Advance(c, a, io));
    assert s'.calls[c] == Call(h, Answered(s.w, s.hooks[h], pc, a, io).pc.value);
  }

  lemma LookEnded(s: State, c: CallId, a: Answer, io: Io)
    requires ScreenInv(s) && Enabled(s, Advance(c, a, io)) && NotStranded(s, s.calls[c].hook) && !Works(s.calls[c].pc)
    requires Answered(s.w, s.hooks[s.calls[c].hook], s.calls[c].pc, a, io).pc.None?
    ensures NotStranded(Next(s, Advance(c, a, io)), s.calls[c].hook)
  {
    hide Reduce, Answered;
    var h := s.calls[c].hook;
    LookStartsNothing(s.w, s.hooks[h], s.calls[c].pc, a, io);
    if s.hooks[h].attempt.Paying? {
      var s' := Next(s, Advance(c, a, io));
      var d :| d in s.calls && s.calls[d].hook == h && Works(s.calls[d].pc);
      assert s'.calls[d] == s.calls[d];
    }
  }

  lemma AdvanceEnded(s: State, c: CallId, a: Answer, io: Io)
    requires ScreenInv(s) && DoubtInv(s) && Enabled(s, Advance(c, a, io)) && NotStranded(s, s.calls[c].hook)
    requires Answered(s.w, s.hooks[s.calls[c].hook], s.calls[c].pc, a, io).pc.None?
    ensures NotStranded(Next(s, Advance(c, a, io)), s.calls[c].hook)
  {
    hide Reduce, Answered;
    var h, pc := s.calls[c].hook, s.calls[c].pc;
    var k, s' := s.hooks[h], Next(s, Advance(c, a, io));
    if !Works(pc) {
      LookEnded(s, c, a, io);
    } else if Claims(pc) {
      EndedRunNotPaying(s.w, k, pc, a, io);
      if LeavesPaying(s.w, k, pc, a) {
        var d :| d in s.calls && s.calls[d].hook == h && Checks(s.calls[d].pc);
        assert d != c && s'.calls[d] == s.calls[d];
      }
    } else if Checks(pc) && !pc.CheckRead? {
      EndedCheckNotPaying(s.w, k, pc, a, io);
    } else {
      EndedReadNotPaying(s.w, k, pc, a, io);
      if LeavesPaying(s.w, k, pc, a) {
        assert k.storageUnknown;
        var d :| d in s.calls && s.calls[d].hook == h && s.calls[d].pc.RunRead?;
        assert d != c && s'.calls[d] == s.calls[d];
      }
    }
  }

  // In every reachable state, on every screen.
  lemma NeverStranded(s: State, h: HookId)
    requires Reachable(s)
    ensures ScreenInv(s) && NotStranded(s, h)
  {
    var s0 :| Init(s0) && Leads(s0, s);
    var ss, ts :| Path(ss, ts) && ss[0] == s0 && ss[|ts|] == s;
    PathStrandsNobody(ss, ts, h);
  }

  lemma {:induction false} PathStrandsNobody(ss: seq<State>, ts: seq<Step>, h: HookId)
    requires Path(ss, ts) && Init(ss[0])
    ensures ScreenInv(ss[|ts|]) && DoubtInv(ss[|ts|]) && NotStranded(ss[|ts|], h)
    decreases |ts|
  {
    hide Reduce;
    if ts != [] {
      var n := |ts| - 1;
      PathStrandsNobody(ss[..n + 1], ts[..n], h);
      StepKeepsScreens(ss[n], ts[n]);
      StepKeepsDoubt(ss[n], ts[n]);
      StepStrandsNobody(ss[n], ts[n], h);
    }
  }

  // How many answers a call still waits for at most.
  function AnswersLeft(pc: Pc): nat {
    match pc
    case CheckReport(_, tries, _) => if tries < REPORT_TRIES then REPORT_TRIES - tries else 0
    case RunReport(_, tries, _) => if tries < REPORT_TRIES then REPORT_TRIES - tries else 0
    case CheckHash(_, _, _) => REPORT_TRIES + 1
    case RunAnswer(_) => REPORT_TRIES + 1
    case CheckOpen(_, _, _) => REPORT_TRIES + 2
    case RunSign(_, _, _) => REPORT_TRIES + 2
    case CheckRead(_, _) => REPORT_TRIES + 3
    case RunCreate(_, _) => REPORT_TRIES + 4
    case MountRead => REPORT_TRIES + 4
    case ResetRead => REPORT_TRIES + 4
    case RunRead => REPORT_TRIES + 5
  }

  // Every answer brings its call nearer its end, so a run or a check is over after at most eight answers of its own
  // -- and then, with nothing else at work on its screen, the attempt is not in flight.
  lemma CallsEnd(s: State, c: CallId, a: Answer, io: Io)
    requires Reachable(s) && Enabled(s, Advance(c, a, io))
    ensures var s' := Next(s, Advance(c, a, io));
            AnswersLeft(s.calls[c].pc) > 0 &&
            (c in s'.calls ==> AnswersLeft(s'.calls[c].pc) < AnswersLeft(s.calls[c].pc))
  {
    hide Reduce, Reachable, Answered;
    ReachableInv(s);
    assert PcInv(s.w, s.calls[c].pc);
    AnswerBringsNearer(s.w, s.hooks[s.calls[c].hook], s.calls[c].pc, a, io);
  }

  lemma AnswerBringsNearer(w: World, k: Hook, pc: Pc, a: Answer, io: Io)
    requires CanAnswer(w, pc, a, io) && PcInv(w, pc)
    ensures AnswersLeft(pc) > 0
    ensures var o := Answered(w, k, pc, a, io); o.pc.Some? ==> AnswersLeft(o.pc.value) < AnswersLeft(pc)
  {
    hide Reduce, ReadWorld, WriteHold, Lift, Abandon, Release, ReportWorld, OpenNew, EndStart, WorldInv;
  }

  // ---------------------------------------------------------------- idle

  // A screen goes back to idle -- by a reset or by doubt cleared -- only in a step that read the store well and
  // found no active record in it.
  lemma IdleOnlyWithoutHold(s: State, t: Step, h: HookId)
    requires Enabled(s, t) && h in s.hooks && h in Next(s, t).hooks
    requires !s.hooks[h].attempt.Idle? && Next(s, t).hooks[h].attempt.Idle?
    ensures !s.w.hold.Unreadable? && !Active(s.w.hold, s.w.now)
    ensures t.Advance? && t.a.StorageRead?
  {
    if t.Advance? {
      var pc, k := s.calls[t.c].pc, s.hooks[h];
      IdleStep(s.w, k, pc, t.a, t.io);
    }
  }

  lemma IdleStep(w: World, k: Hook, pc: Pc, a: Answer, io: Io)
    requires CanAnswer(w, pc, a, io) && !k.attempt.Idle? && Answered(w, k, pc, a, io).k.attempt.Idle?
    ensures a.StorageRead? && ReadResult(w, k, true).None_?
  {
    if Claims(pc) || pc.CheckOpen? || pc.CheckHash? || pc.CheckReport? { NoIdle(w, k, pc, a, io); }
  }

  lemma NoIdle(w: World, k: Hook, pc: Pc, a: Answer, io: Io)
    requires CanAnswer(w, pc, a, io) && !k.attempt.Idle?
    requires Claims(pc) || pc.CheckOpen? || pc.CheckHash? || pc.CheckReport?
    ensures !Answered(w, k, pc, a, io).k.attempt.Idle?
  {
    hide Reduce, WriteHold, Lift, Abandon, Release, ReportWorld, OpenNew, EndStart;
    AttemptFacts();
    if Claims(pc) {
      match pc {
        case RunCreate(_, _) =>
        case RunSign(_, _, _) =>
        case RunAnswer(_) =>
        case RunReport(_, _, _) =>
      }
    } else {
      CheckNotIdle(w, k, pc, a, io);
    }
  }

  lemma CheckNotIdle(w: World, k: Hook, pc: Pc, a: Answer, io: Io)
    requires CanAnswer(w, pc, a, io) && !k.attempt.Idle?
    requires pc.CheckOpen? || pc.CheckHash? || pc.CheckReport?
    ensures !Answered(w, k, pc, a, io).k.attempt.Idle?
  {
    hide Reduce, WriteHold, Lift, ReportWorld;
    AttemptFacts();
    match pc {
      case CheckOpen(_, _, _) =>
      case CheckHash(_, _, _) =>
      case CheckReport(_, _, _) =>
    }
  }
}
