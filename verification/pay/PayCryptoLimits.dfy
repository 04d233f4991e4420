// Where the crypto payment's safeguards end: which intent a hold names, and a removal storage did not make.
module PayCryptoLimits {
  import opened Common
  import opened PayHold
  import opened PayTypes
  import opened PayAttempt
  import opened PayCrypto
  import opened PayCryptoSafety

  // ---------------------------------------------------------------- the intent a hold names

  predicate Agree(w: World) {
    Active(w.hold, w.now) && w.open.Some? ==> w.hold.intent == w.open.value.id
  }

  // A hold for intent i, written now, would contradict the open intent.
  predicate WritesAgainst(w: World, i: IntentId, io: Io) {
    w.hold.NoHold? && io.writes && w.open.Some? && w.open.value.id != i
  }

  // A check gives up on intent i in this step, and holds.
  predicate GivesUp(w: World, pc: Pc, a: Answer, i: IntentId) {
    match pc
    case CheckOpen(_, held, _) => a.NoAnswer? && held == Some(i)
    case CheckHash(intent, isHeld, _) => intent == i && isHeld && !(a.HashIs? && i in w.hashes)
    case CheckReport(intent, tries, _) => intent == i && AfterReport(tries, a).NotReported?
    case _ => false
  }

  // The guards of the two branches that break agreement: an intent opens under an active hold of another, or a
  // check that looked earlier writes its own intent's hold into an empty store while another intent is open.
  predicate BreaksAgreement(s: State, t: Step) {
    t.Advance? && t.c in s.calls &&
    match s.calls[t.c].pc
    case RunCreate(_, _) =>
      (t.a.Created? || t.a.CreatedUnheard?) && Active(s.w.hold, s.w.now) && s.w.hold.intent != t.a.id
    case CheckOpen(_, held, _) =>
      held.Some? && GivesUp(s.w, s.calls[t.c].pc, t.a, held.value) && WritesAgainst(s.w, held.value, t.io)
    case CheckHash(i, _, _) => GivesUp(s.w, s.calls[t.c].pc, t.a, i) && WritesAgainst(s.w, i, t.io)
    case CheckReport(i, _, _) => GivesUp(s.w, s.calls[t.c].pc, t.a, i) && WritesAgainst(s.w, i, t.io)
    case _ => false
  }

  lemma LookAgrees(w: World, k: Hook, pc: Pc, a: Answer, io: Io)
    requires Agree(w) && CanAnswer(w, pc, a, io)
    requires pc.MountRead? || pc.CheckRead? || pc.RunRead? || pc.ResetRead?
    ensures Agree(Answered(w, k, pc, a, io).w)
  {
    hide Reduce;
  }

  lemma CheckAgrees(w: World, k: Hook, pc: Pc, a: Answer, io: Io, i: IntentId)
    requires Agree(w) && CanAnswer(w, pc, a, io)
    requires (pc.CheckOpen? && pc.held == Some(i)) || (pc.CheckHash? && pc.intent == i) ||
        (pc.CheckReport? && pc.intent == i)
    ensures Agree(Answered(w, k, pc, a, io).w) <==> !(GivesUp(w, pc, a, i) && WritesAgainst(w, i, io))
  {
    hide Reduce;
    match pc {
      case CheckOpen(_, _, _) =>
      case CheckHash(_, _, _) =>
      case CheckReport(_, _, _) =>
    }
  }

  lemma ClaimAgrees(w: World, k: Hook, pc: Pc, a: Answer, io: Io)
    requires WorldInv(w) && Agree(w) && CanAnswer(w, pc, a, io) && PcInv(w, pc)
    requires pc.RunSign? || pc.RunAnswer? || pc.RunReport?
    ensures Agree(Answered(w, k, pc, a, io).w)
  {
    hide Reduce;
    match pc {
      case RunSign(_, _, _) =>
      case RunAnswer(_) =>
      case RunReport(_, _, _) =>
    }
  }

  // From a state where they agree, a step makes an active hold and the open intent name different intents exactly
  // when it is one of those two.
  lemma StepBreaksAgreement(s: State, t: Step)
    requires Reachable(s) && Enabled(s, t) && Agree(s.w)
    ensures Agree(Next(s, t).w) <==> !BreaksAgreement(s, t)
  {
    hide Reduce, Reachable, WorldInv, Answered;
    ReachableInv(s);
    if t.Advance? {
      var k, pc := s.hooks[s.calls[t.c].hook], s.calls[t.c].pc;
      assert PcInv(s.w, pc);
      match pc {
        case CheckOpen(_, held, _) =>
          if held.Some? { CheckAgrees(s.w, k, pc, t.a, t.io, held.value); }
          else { UnheldAgrees(s.w, k, pc, t.a, t.io); }
        case CheckHash(i, _, _) => CheckAgrees(s.w, k, pc, t.a, t.io, i);
        case CheckReport(i, _, _) => CheckAgrees(s.w, k, pc, t.a, t.io, i);
        case RunCreate(_, _) => CreateAgrees(s.w, k, pc, t.a, t.io);
        case RunSign(_, _, _) => ClaimAgrees(s.w, k, pc, t.a, t.io);
        case RunAnswer(_) => ClaimAgrees(s.w, k, pc, t.a, t.io);
        case RunReport(_, _, _) => ClaimAgrees(s.w, k, pc, t.a, t.io);
        case _ => LookAgrees(s.w, k, pc, t.a, t.io);
      }
    }
  }

  lemma UnheldAgrees(w: World, k: Hook, pc: Pc, a: Answer, io: Io)
    requires Agree(w) && CanAnswer(w, pc, a, io) && pc.CheckOpen? && pc.held.None?
    ensures Agree(Answered(w, k, pc, a, io).w)
  {
    hide Reduce;
  }

  lemma CreateAgrees(w: World, k: Hook, pc: Pc, a: Answer, io: Io)
    requires Agree(w) && CanAnswer(w, pc, a, io) && pc.RunCreate?
    ensures Agree(Answered(w, k, pc, a, io).w) <==>
              !((a.Created? || a.CreatedUnheard?) && Active(w.hold, w.now) && w.hold.intent != a.id)
  {
    hide Reduce;
  }

  lemma PrefixReachable(ss: seq<State>, ts: seq<Step>, n: nat)
    requires Path(ss, ts) && Init(ss[0]) && n <= |ts|
    ensures Reachable(ss[n])
  {
    assert Path(ss[..n + 1], ts[..n]);
    assert Leads(ss[0], ss[n]) by { assert ss[..n + 1][0] == ss[0] && ss[..n + 1][|ts[..n]|] == ss[n]; }
  }

  // Over any run of the app: they agree throughout exactly when none of its steps breaks agreement.
  lemma HoldNamesOpenIntent(ss: seq<State>, ts: seq<Step>)
    requires Path(ss, ts) && Init(ss[0])
    ensures (forall n :: 0 <= n <= |ts| ==> Agree(ss[n].w)) <==>
        (forall n :: 0 <= n < |ts| ==> !BreaksAgreement(ss[n], ts[n]))
  {
    hide Agree, BreaksAgreement;
    if forall n :: 0 <= n <= |ts| ==> Agree(ss[n].w) {
      forall n | 0 <= n < |ts| ensures !BreaksAgreement(ss[n], ts[n]) {
        PrefixReachable(ss, ts, n);
        StepBreaksAgreement(ss[n], ts[n]);
        assert Agree(ss[n + 1].w);
      }
    }
    if forall n :: 0 <= n < |ts| ==> !BreaksAgreement(ss[n], ts[n]) {
      forall n | 0 <= n <= |ts| ensures Agree(ss[n].w) { AgreesUpTo(ss, ts, n); }
    }
  }

  lemma {:induction false} AgreesUpTo(ss: seq<State>, ts: seq<Step>, n: nat)
    requires Path(ss, ts) && Init(ss[0]) && n <= |ts|
    requires forall m :: 0 <= m < |ts| ==> !BreaksAgreement(ss[m], ts[m])
    ensures Agree(ss[n].w)
  {
    if n > 0 {
      AgreesUpTo(ss, ts, n - 1);
      PrefixReachable(ss, ts, n - 1);
      StepBreaksAgreement(ss[n - 1], ts[n - 1]);
    }
  }

  // ---------------------------------------------------------------- concrete runs

  lemma LeadsOn(a: State, s: State, t: Step)
    requires Leads(a, s) && Enabled(s, t)
    ensures Leads(a, Next(s, t))
  {
    hide Next, Enabled;
    var ss, ts :| Path(ss, ts) && ss[0] == a && ss[|ts|] == s;
    var ss', ts' := ss + [Next(s, t)], ts + [t];
    assert Path(ss', ts') && ss'[0] == a && ss'[|ts'|] == Next(s, t);
  }

  lemma LeadsToItself(s: State)
    ensures Leads(s, s)
  {
    var ts: seq<Step> := [];
    assert Path([s], ts) && [s][0] == s && [s][|ts|] == s;
  }

  const Works: Io := Io(true, true, true)
  const Stuck: Io := Io(false, false, true)

  function Fresh(hold: Stored, now: nat): World {
    World(now, hold, {}, {}, 0, 0, None, {}, None, {}, false, map[])
  }

  predicate NoActiveRecord(w: World) { !w.hold.Unreadable? && !Active(w.hold, w.now) }

  // What a read leaves when nothing active is stored.
  function AfterRead(w: World, io: Io): World {
    if w.hold.Hold? then Lift(w, w.hold.intent, io) else w
  }

  // Screen h opens and finds nothing active.
  function Opened(s: State, h: HookId, io: Io): State {
    State(AfterRead(s.w, io), s.hooks[h := Hook(Idle, false, false, true)], s.calls)
  }

  lemma Opens(a: State, s: State, c: CallId, h: HookId, io: Io)
    requires Leads(a, s) && h !in s.hooks && c !in s.calls && NoActiveRecord(s.w)
    ensures Leads(a, Opened(s, h, io))
  {
    hide Leads;
    var s1 := Next(s, Mount(c, h));
    LeadsOn(a, s, Mount(c, h));
    LeadsOn(a, s1, Advance(c, StorageRead(true), io));
    assert Next(s1, Advance(c, StorageRead(true), io)).calls == s.calls;
    assert Next(s1, Advance(c, StorageRead(true), io)).hooks == Opened(s, h, io).hooks;
  }

  // An idle screen's run reads, claims and waits for its intent.
  function Claimed(s: State, c: CallId, h: HookId, io: Io): State {
    var w := AfterRead(s.w, io);
    State(w.(starts := w.starts + 1), s.hooks[h := Hook(Paying(false, None, None, false), false, false, true)],
          s.calls[c := Call(h, RunCreate(w.now, w.hold.NoHold?))])
  }

  lemma ClaimsLock(a: State, s: State, c: CallId, h: HookId, io: Io)
    requires Leads(a, s) && c !in s.calls && NoActiveRecord(s.w) && !AnySaleRunning(s.w)
    requires h in s.hooks && s.hooks[h] == Hook(Idle, false, false, true)
    ensures Leads(a, Claimed(s, c, h, io))
  {
    hide Leads;
    var s1 := Next(s, AskRun(c, h));
    assert s1.calls == s.calls[c := Call(h, RunRead)];
    LeadsOn(a, s, AskRun(c, h));
    LeadsOn(a, s1, Advance(c, StorageRead(true), io));
    assert Next(s1, Advance(c, StorageRead(true), io)) == Claimed(s, c, h, io);
  }

  // Its intent opens, and is held for signing.
  function ToSign(s: State, c: CallId, i: IntentId): State
    requires c in s.calls && s.calls[c].pc.RunCreate?
  {
    var call := s.calls[c];
    var w := OpenNew(EndStart(s.w), i);
    State(w.(inFlight := w.inFlight + {i}), s.hooks,
          s.calls[c := Call(call.hook, RunSign(i, call.pc.claimedAt, call.pc.clean))])
  }

  lemma IntentOpens(a: State, s: State, c: CallId, i: IntentId)
    requires Leads(a, s) && c in s.calls && s.calls[c].pc.RunCreate? && s.calls[c].hook in s.hooks && CanOpen(s.w, i)
    ensures Leads(a, ToSign(s, c, i))
  {
    hide Leads;
    LeadsOn(a, s, Advance(c, Created(i), Works));
    assert Next(s, Advance(c, Created(i), Works)).hooks == s.hooks;
  }

  // A fresh screen goes all the way to signing intent i.
  function Signable(s: State, c: CallId, h: HookId, io: Io, i: IntentId): State {
    ToSign(Claimed(Opened(s, h, io), c, h, io), c, i)
  }

  lemma ReachesSigning(a: State, s: State, c: CallId, h: HookId, io: Io, i: IntentId)
    requires Leads(a, s) && h !in s.hooks && c !in s.calls && NoActiveRecord(s.w)
    requires !AnySaleRunning(s.w) && CanOpen(s.w, i)
    ensures Leads(a, Signable(s, c, h, io, i))
  {
    hide Leads;
    Opens(a, s, c, h, io);
    ClaimsLock(a, Opened(s, h, io), c, h, io);
    IntentOpens(a, Claimed(Opened(s, h, io), c, h, io), c, i);
  }

  lemma SignsAndSends(a: State, s: State) returns (s': State)
    requires Leads(a, s) && s.calls == map[0 := Call(0, RunSign(7, 0, true))] && s.hooks.Keys == {0}
    requires s.w.now == 0 && s.w.hold.NoHold? && s.w.hashes == {} && s.w.swaps == map[]
    ensures Leads(a, s') && s'.calls == map[0 := Call(0, RunReport(7, 0, true))] && s'.hooks == s.hooks
    ensures s'.w == s.w.(hold := Hold(7, 0), hashes := {7}, swaps := map[7 := Swap(0, 0, 0, true)])
  {
    hide Leads;
    var s1 := Next(s, Advance(0, Signed, Works));
    LeadsOn(a, s, Advance(0, Signed, Works));
    assert s1.calls == map[0 := Call(0, RunAnswer(7))];
    s' := Next(s1, Advance(0, Sent, Works));
    LeadsOn(a, s1, Advance(0, Sent, Works));
  }

  // Signed, sent, and the server refuses its hash: the phone holds intent 7.
  lemma HeldAfterRefusal(a: State, s: State) returns (s': State)
    requires Leads(a, s) && s.calls == map[0 := Call(0, RunSign(7, 0, true))] && s.hooks.Keys == {0}
    requires s.w.now == 0 && s.w.hold.NoHold? && s.w.hashes == {} && s.w.swaps == map[] && s.w.inFlight == {7}
    requires !s.hooks[0].checking
    ensures Leads(a, s') && s'.calls == map[] && s'.hooks.Keys == {0} && !s'.hooks[0].checking
    ensures s'.w == s.w.(hold := Hold(7, 0), hashes := {7}, inFlight := {}, swaps := map[7 := Swap(0, 0, 0, true)])
  {
    hide Leads;
    var s1 := SignsAndSends(a, s);
    s' := Next(s1, Advance(0, Refused, Works));
    LeadsOn(a, s1, Advance(0, Refused, Works));
  }

  // A check looks, finds the hold, and waits on the server until it has run out, while the server closes the intent.
  lemma CheckWaitsItOut(a: State, s: State) returns (s': State)
    requires Leads(a, s) && s.calls == map[] && s.hooks.Keys == {0} && !s.hooks[0].checking
    requires s.w.hold == Hold(7, s.w.now)
    ensures Leads(a, s') && s'.w == s.w.(now := s.w.now + HOLD_MAX_MS + 1, open := None)
    ensures s'.calls == map[1 := Call(0, CheckOpen(true, Some(7), Nothing))] && s'.hooks.Keys == {0}
  {
    hide Leads;
    var s1 := Next(s, AskCheck(1, 0, true));
    LeadsOn(a, s, AskCheck(1, 0, true));
    assert s1.calls == map[1 := Call(0, CheckRead(true, Nothing))];
    var s2 := Next(s1, Advance(1, StorageRead(true), Works));
    LeadsOn(a, s1, Advance(1, StorageRead(true), Works));
    var s3 := Next(s2, Tick(HOLD_MAX_MS + 1));
    LeadsOn(a, s2, Tick(HOLD_MAX_MS + 1));
    s' := Next(s3, ServerCloses);
    LeadsOn(a, s3, ServerCloses);
  }

  // A check that looked at the hold while it was active, and then waited on the server until it was not, is still
  // under way when the next intent is signed under a store found empty.
  lemma LateCheckMeetsNextRun() returns (a: State, s: State)
    ensures Init(a) && Leads(a, s) && s.w.now == HOLD_MAX_MS + 1 && s.w.swaps == map[7 := Swap(0, 0, 0, true)]
    ensures s.w.hold.NoHold? && s.w.open == Some(OpenIntent(8, true)) && s.w.known == {} && !s.w.terminal
    ensures s.calls == map[1 := Call(0, CheckOpen(true, Some(7), Nothing)), 2 := Call(1, RunSign(8, s.w.now, true))]
    ensures s.hooks.Keys == {0, 1}
  {
    hide Leads;
    a := State(Fresh(NoHold, 0), map[], map[]);
    LeadsToItself(a);
    ReachesSigning(a, a, 0, 0, Works, 7);
    assert Signable(a, 0, 0, Works, 7).calls == map[0 := Call(0, RunSign(7, 0, true))];
    var s1 := HeldAfterRefusal(a, Signable(a, 0, 0, Works, 7));
    var s2 := CheckWaitsItOut(a, s1);
    ReachesSigning(a, s2, 2, 1, Works, 8);
    s := Signable(s2, 2, 1, Works, 8);
  }

  // The check's server call then fails, and it writes its own intent's hold.
  lemma LateCheckWrites() returns (a: State, s: State)
    ensures Init(a) && Leads(a, s) && s.w.now == HOLD_MAX_MS + 1 && s.w.swaps == map[7 := Swap(0, 0, 0, true)]
    ensures s.w.hold == Hold(7, s.w.now) && s.w.open == Some(OpenIntent(8, true)) && s.w.known == {} && !s.w.terminal
    ensures s.calls == map[2 := Call(1, RunSign(8, s.w.now, true))] && s.hooks.Keys == {0, 1}
  {
    hide Leads;
    var s0;
    a, s0 := LateCheckMeetsNextRun();
    var t := Advance(1, NoAnswer, Works);
    LeadsOn(a, s0, t);
    s := Next(s0, t);
    assert s.calls == map[2 := Call(1, RunSign(8, s.w.now, true))];
  }

  lemma HoldCanNameAnother()
    ensures exists s :: Reachable(s) && !Agree(s.w)
  {
    hide Leads;
    var a, s := LateCheckWrites();
  }

  // ---------------------------------------------------------------- two payments

  // From state b on, another swap is handed over with the swap of intent i, as it was signed, not safe.
  ghost predicate PaidAgain(b: State, i: IntentId, s: State, t: Step)
    requires i in b.w.swaps
  {
    Leads(b, s) && Enabled(s, t) && Broadcasts(s, t) && i in s.w.swaps && s.w.swaps[i] == b.w.swaps[i] && !Safe(s.w, i)
  }

  lemma LeadsFar(a: State, b: State, c: State)
    requires Leads(a, b) && Leads(b, c)
    ensures Leads(a, c)
  {
    hide Next, Enabled;
    var ss, ts :| Path(ss, ts) && ss[0] == a && ss[|ts|] == b;
    var rs, us :| Path(rs, us) && rs[0] == b && rs[|us|] == c;
    var all, steps := ss + rs[1..], ts + us;
    forall n | 0 <= n < |steps| ensures Enabled(all[n], steps[n]) && all[n + 1] == Next(all[n], steps[n]) {
      if n >= |ts| { assert all[n] == rs[n - |ts|] && all[n + 1] == rs[n - |ts| + 1]; }
    }
    assert Path(all, steps) && all[0] == a && all[|steps|] == c;
  }

  lemma FreshId(ids: set<IntentId>) returns (i: IntentId)
    ensures forall j <- ids :: j < i
  {
    i := 0;
    if m :| m in ids {
      var n := FreshId(ids - {m});
      i := if m < n then n else m + 1;
      forall j <- ids ensures j < i { assert j == m || j in ids - {m}; }
    }
  }

  // The app is killed, the server closes the intent, and the record runs out.
  lemma KilledAndRunOut(b: State, i: IntentId) returns (s: State)
    requires i in b.w.swaps && UnderOlderRecord(b.w, i) && b.w.now == b.w.swaps[i].signedAt
    requires b.w.hold.Hold? && b.w.hold.at == b.w.swaps[i].holdAt
    ensures Leads(b, s) && s.hooks == map[] && s.calls == map[] && NoActiveRecord(s.w) && !AnySaleRunning(s.w)
    ensures s.w.open.None? && s.w == b.w.(now := s.w.now, open := None, inFlight := {}, starts := 0, others := 0)
    ensures s.w.now <= b.w.swaps[i].signedAt + HOLD_MAX_MS
  {
    hide Leads;
    LeadsToItself(b);
    LeadsOn(b, b, Kill);
    var s1 := Next(b, Kill);
    LeadsOn(b, s1, ServerCloses);
    var s2 := Next(s1, ServerCloses);
    var over := b.w.hold.at + HOLD_MAX_MS + 1;
    var wait := if over > b.w.now then over - b.w.now else 0;
    LeadsOn(b, s2, Tick(wait));
    s := Next(s2, Tick(wait));
  }

  lemma UnderRecordPaidAgain(b: State, i: IntentId)
    requires i in b.w.swaps && UnderOlderRecord(b.w, i) && b.w.now == b.w.swaps[i].signedAt
    requires b.w.hold.Hold? && b.w.hold.at == b.w.swaps[i].holdAt && i !in b.w.known && !b.w.terminal
    ensures exists s: State, t: Step :: PaidAgain(b, i, s, t)
  {
    hide Leads, Next;
    var s1 := KilledAndRunOut(b, i);
    var j := FreshId(s1.w.created);
    ReachesSigning(b, s1, 0, 0, Works, j);
    var s2, t := Signable(s1, 0, 0, Works, j), Advance(0, Signed, Works);
    assert s2.calls[0] == Call(0, RunSign(j, s1.w.now, true));
    assert PaidAgain(b, i, s2, t);
  }

  // The exact condition. After a swap is handed over, whose intent the server does not know of and whose payment
  // goes on, another one can go out within 24 h of its signature exactly when a record was already in the store at
  // that signature: the store keeps that record and its earlier time.
  lemma PaidAgainExactlyWhen(s: State, t: Step)
    requires Reachable(s) && Enabled(s, t) && Broadcasts(s, t) && !s.w.terminal
    requires s.calls[t.c].pc.intent !in s.w.known
    ensures var i, b := s.calls[t.c].pc.intent, Next(s, t);
            i in b.w.swaps &&
            ((exists s': State, t': Step :: PaidAgain(b, i, s', t')) <==> s.w.hold.Hold? && s.w.hold.at < s.w.now)
  {
    hide Leads, Reduce;
    var i, b := s.calls[t.c].pc.intent, Next(s, t);
    ReachableInv(s);
    if s.w.hold.Hold? && s.w.hold.at < s.w.now {
      UnderRecordPaidAgain(b, i);
    } else {
      forall s': State, t': Step ensures !PaidAgain(b, i, s', t') {
        if PaidAgain(b, i, s', t') {
          var s0 :| Init(s0) && Leads(s0, s);
          LeadsOn(s0, s, t);
          LeadsFar(s0, b, s');
          NoDoublePayment(s', t');
        }
      }
    }
  }

  // The condition is met: by an expired record that storage did not remove -- then the next swap can go out in the
  // same minute --
  lemma LeftoverRecordLetsTwoOut()
    ensures exists s, t: Step, i: IntentId ::
              Reachable(s) && Enabled(s, t) && Broadcasts(s, t) && i in s.w.swaps && i != s.calls[t.c].pc.intent &&
              s.w.swaps[i].signedAt == s.w.now && i !in s.w.known && !s.w.terminal
  {
    hide Leads;
    var now := HOLD_MAX_MS + 1;
    var a := State(Fresh(Hold(3, 0), now), map[], map[]);
    LeadsToItself(a);
    ReachesSigning(a, a, 0, 0, Stuck, 7);
    var s1 := OutUnderLeftover(a, Signable(a, 0, 0, Stuck, 7));
    ReachesSigning(a, s1, 0, 0, Stuck, 8);
    var s2 := Signable(s1, 0, 0, Stuck, 8);
    assert s2.calls == map[0 := Call(0, RunSign(8, now, false))] && 0 in s2.hooks;
    assert Broadcasts(s2, Advance(0, Signed, Stuck)) && Enabled(s2, Advance(0, Signed, Stuck));
    assert 7 in s2.w.swaps && 7 != s2.calls[0].pc.intent;
  }

  lemma OutUnderLeftover(a: State, s: State) returns (s': State)
    requires Leads(a, s) && s == Signable(State(Fresh(Hold(3, 0), HOLD_MAX_MS + 1), map[], map[]), 0, 0, Stuck, 7)
    ensures Leads(a, s') && s'.hooks == map[] && s'.calls == map[]
    ensures s'.w == s.w.(hashes := {7}, inFlight := {}, open := None,
                         swaps := map[7 := Swap(s.w.now, s.w.now, 0, false)])
    ensures s.w.now == HOLD_MAX_MS + 1 && s.w.hold == Hold(3, 0) && s.w.created == {7} && !s.w.terminal
    ensures s.w.starts == 0 && s.w.others == 0 && s.w.known == {}
  {
    hide Leads;
    assert s.calls == map[0 := Call(0, RunSign(7, s.w.now, false))];
    var s1 := Next(s, Advance(0, Signed, Stuck));
    LeadsOn(a, s, Advance(0, Signed, Stuck));
    var s2 := Next(s1, ServerCloses);
    LeadsOn(a, s1, ServerCloses);
    s' := Next(s2, Kill);
    LeadsOn(a, s2, Kill);
  }

  // -- and by a late check's hold, written after a run had found the store empty: the record is active and all
  // storage worked.
  lemma LateHoldLetsTwoOut()
    ensures exists s, t: Step ::
              Reachable(s) && Enabled(s, t) && Broadcasts(s, t) && s.calls[t.c].pc.clean && Active(s.w.hold, s.w.now) &&
              s.w.hold.at < s.w.now && !s.w.terminal && s.calls[t.c].pc.intent !in s.w.known
  {
    hide Leads;
    var a, s0 := LateCheckWrites();
    LeadsOn(a, s0, Tick(1));
    var s, t := Next(s0, Tick(1)), Advance(2, Signed, Works);
    assert s.calls[2] == Call(1, RunSign(8, s0.w.now, true)) && 1 in s.hooks;
    assert Enabled(s, t) && Broadcasts(s, t);
  }

  // ---------------------------------------------------------------- a held failure downgraded

  function NothingLeft(): Event { FailEvent("nothing to continue", false, false, Some(true)) }

  function NotChecked(): Event { FailEvent("could not check", true, false, None) }

  // Reached in the app: a check fails held while its record runs out; she checks again and there is nothing of hers
  // any more, which is final but not held; and one more check, unanswered, then offers Pay.
  lemma HeldThenOffersPay()
    ensures exists s: State, s': State ::
              Reachable(s) && Leads(s, s') && 0 in s.hooks && 0 in s'.hooks &&
              IsHeld(s.hooks[0].attempt) && !OffersPay(s.hooks[0].attempt) && OffersPay(s'.hooks[0].attempt) &&
              s'.hooks[0].attempt == Reduce(Reduce(s.hooks[0].attempt, NothingLeft()), NotChecked())
  {
    hide Leads;
    var a, s := HeldAtTheEnd();
    LeadsToItself(s);
    var s1 := NothingToContinue(s);
    var s2 := Unanswered(s, s1);
  }

  lemma HeldAtTheEnd() returns (a: State, s: State)
    ensures Init(a) && Leads(a, s) && s.hooks.Keys == {0} && s.calls == map[] && s.w.hold == Hold(3, 0) &&
        s.w.now == HOLD_MAX_MS + 1
    ensures s.w.open.None? && !s.hooks[0].checking && !s.hooks[0].storageUnknown
    ensures s.hooks[0].attempt == Reduce(Idle, NotConfirmed())
  {
    hide Leads;
    a := State(Fresh(Hold(3, 0), HOLD_MAX_MS), map[], map[]);
    LeadsToItself(a);
    var s1 := Next(a, Mount(0, 0));
    LeadsOn(a, a, Mount(0, 0));
    assert s1.calls == map[0 := Call(0, MountRead)];
    var s2 := Next(s1, Advance(0, StorageRead(true), Works));
    LeadsOn(a, s1, Advance(0, StorageRead(true), Works));
    assert s2.calls == map[0 := Call(0, CheckRead(false, AfterMount))];
    var s3 := Next(s2, Advance(0, StorageRead(true), Works));
    LeadsOn(a, s2, Advance(0, StorageRead(true), Works));
    assert s3.calls == map[0 := Call(0, CheckOpen(false, Some(3), AfterMount))];
    var s4 := Next(s3, Tick(1));
    LeadsOn(a, s3, Tick(1));
    s := Next(s4, Advance(0, NoAnswer, Works));
    LeadsOn(a, s4, Advance(0, NoAnswer, Works));
  }

  lemma NothingToContinue(s: State) returns (s': State)
    requires s.hooks.Keys == {0} && s.calls == map[] && NoActiveRecord(s.w) && s.w.open.None?
    requires !s.hooks[0].checking && !s.hooks[0].storageUnknown
    ensures Leads(s, s') && s'.hooks.Keys == {0} && s'.calls == map[] && NoActiveRecord(s'.w)
    ensures !s'.hooks[0].checking && !s'.hooks[0].storageUnknown
    ensures s'.hooks[0].attempt == Reduce(s.hooks[0].attempt, NothingLeft())
  {
    hide Leads, Reduce;
    LeadsToItself(s);
    var s1 := Asked(s, s);
    s' := Next(s1, Advance(1, OpenIs, Works));
    LeadsOn(s, s1, Advance(1, OpenIs, Works));
  }

  // She asks to continue, and the check finds no record.
  lemma Asked(a: State, s: State) returns (s': State)
    requires Leads(a, s) && s.hooks.Keys == {0} && s.calls == map[] && NoActiveRecord(s.w)
    requires !s.hooks[0].checking && !s.hooks[0].storageUnknown
    ensures Leads(a, s') && s'.calls == map[1 := Call(0, CheckOpen(true, None, Nothing))] &&
        s'.w == AfterRead(s.w, Works)
    ensures s'.hooks == map[0 := s.hooks[0].(checking := true)]
  {
    hide Leads, Reduce;
    var s1 := Next(s, AskCheck(1, 0, true));
    LeadsOn(a, s, AskCheck(1, 0, true));
    assert s1.calls == map[1 := Call(0, CheckRead(true, Nothing))];
    s' := Next(s1, Advance(1, StorageRead(true), Works));
    LeadsOn(a, s1, Advance(1, StorageRead(true), Works));
  }

  lemma Unanswered(a: State, s: State) returns (s': State)
    requires Leads(a, s) && s.hooks.Keys == {0} && s.calls == map[] && NoActiveRecord(s.w)
    requires !s.hooks[0].checking && !s.hooks[0].storageUnknown
    ensures Leads(a, s') && 0 in s'.hooks
    ensures s'.hooks[0].attempt == Reduce(s.hooks[0].attempt, NotChecked())
  {
    hide Leads, Reduce;
    var s1 := Asked(a, s);
    s' := Next(s1, Advance(1, NoAnswer, Works));
    LeadsOn(a, s1, Advance(1, NoAnswer, Works));
  }
}
