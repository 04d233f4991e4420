// Paying a crypto merchant (tsa-app/hooks/usePayCrypto.ts) as steps over one phone, one payment and the server.
//
// A call of the hook is cut at its awaits: one storage read or one server answer, with the storage writes it
// decides on, is one step. Any number of screens (hooks) and of calls on each run interleaved; the app may be
// killed between any two steps.
module PayCrypto {
  import opened Common
  import opened PayHold
  import opened PayTypes
  import opened PayAttempt

  const REPORT_TRIES: nat := 3

  type HookId = nat
  type CallId = nat

  // The server's open intent of this payment; `swapping`: it still waits for a hash.
  datatype OpenIntent = OpenIntent(id: IntentId, swapping: bool)

  // A swap signed and handed over for broadcast: it may have reached the merchant. `claimedAt` is when its run
  // read the hold and claimed the sale lock, `holdAt` the time on the record that covers it, and `clean` says
  // that read left no record behind.
  datatype Swap = Swap(claimedAt: nat, signedAt: nat, holdAt: nat, clean: bool)

  datatype World = World(
    now: nat,
    hold: Stored, hashes: set<IntentId>,
    inFlight: set<IntentId>, starts: nat, others: nat,
    open: Option<OpenIntent>, created: set<IntentId>, current: Option<IntentId>, known: set<IntentId>, terminal: bool,
    swaps: map<IntentId, Swap>)

  datatype Hook = Hook(attempt: Attempt, checking: bool, storageUnknown: bool, holdChecked: bool)

  // What the caller of `check` does once it returns.
  datatype After = Nothing | AfterRun | AfterMount

  datatype Pc =
    | MountRead
    | CheckRead(explicit: bool, after: After)
    | CheckOpen(explicit: bool, held: Option<IntentId>, after: After)
    | CheckHash(intent: IntentId, isHeld: bool, after: After)
    | CheckReport(intent: IntentId, tries: nat, after: After)
    | RunRead
    | RunCreate(claimedAt: nat, clean: bool)
    | RunSign(intent: IntentId, claimedAt: nat, clean: bool)
    | RunAnswer(intent: IntentId)
    | RunReport(intent: IntentId, tries: nat, sure: bool)
    | ResetRead

  datatype Call = Call(hook: HookId, pc: Pc)

  datatype State = State(w: World, hooks: map<HookId, Hook>, calls: map<CallId, Call>)

  // Which storage writes of a step succeed. A removal that fails is swallowed by the source.
  datatype Io = Io(dropsHold: bool, dropsHash: bool, writes: bool)

  datatype Answer =
    | StorageFailed | StorageRead(evm: bool)
    | NoAnswer | OpenIs
    | HashIs | HashUnreadable
    | Taken | Refused | Lost(taken: bool)
    | Created(id: IntentId) | CreatedUnheard(id: IntentId) | InProgress | PausedByServer | NotStarted
    | NotSigned(early: bool, closed: bool) | NotSaved(closed: bool) | Signed
    | Sent | Unconfirmed | NotSent(closed: bool)

  // ---------------------------------------------------------------- storage and server

  function ClearHold(w: World, io: Io): World { if io.dropsHold then w.(hold := NoHold) else w }

  function ClearHash(w: World, i: IntentId, io: Io): World { if io.dropsHash then w.(hashes := w.hashes - {i}) else w }

  function Lift(w: World, i: IntentId, io: Io): World { ClearHash(ClearHold(w, io), i, io) }

  // A record already there keeps its time; one that cannot be read or written is left as it is.
  function WriteHold(w: World, i: IntentId, io: Io): World {
    if w.hold.NoHold? && io.writes then w.(hold := Hold(i, w.now)) else w
  }

  predicate AnySaleRunning(w: World) { w.inFlight != {} || w.starts > 0 || w.others > 0 }

  predicate TakesHash(w: World, i: IntentId) {
    w.open.Some? && w.open.value.id == i && (w.open.value.swapping || i in w.known)
  }

  function Record(w: World, i: IntentId): World {
    w.(known := w.known + {i}, open := Some(OpenIntent(i, false)))
  }

  predicate CanOpen(w: World, i: IntentId) { w.open.None? && !w.terminal && i !in w.created }

  function OpenNew(w: World, i: IntentId): World {
    w.(open := Some(OpenIntent(i, true)), created := w.created + {i}, current := Some(i))
  }

  function Abandon(w: World, i: IntentId, closed: bool): World {
    if closed && w.open.Some? && w.open.value.id == i then w.(open := None) else w
  }

  // ---------------------------------------------------------------- dispatches

  function Dispatch(k: Hook, e: Event): Hook { k.(attempt := Reduce(k.attempt, e)) }

  function WaitingEvent(): Event { Handed(None, None, None) }

  function FailEvent(why: string, retryable: bool, held: bool, noContinue: Option<bool>): Event {
    Fail(why, None, retryable, false, held, noContinue, None, None)
  }

  function NotConfirmed(): Event { FailEvent("not confirmed", false, true, Some(false)) }

  function UnconfirmedFinal(): Event { FailEvent("unconfirmed", false, true, Some(true)) }

  datatype Why = Unreachable | Rejected | NoHash

  function FailHeld(k: Hook, why: Why): Hook {
    Dispatch(k, if why.Unreachable? then NotConfirmed() else UnconfirmedFinal())
  }

  // ---------------------------------------------------------------- readHold

  datatype Read = CouldNotRead | Found(intent: IntentId) | None_(recovered: bool)

  function ReadWorld(w: World, ok: bool, io: Io): World {
    if ok && w.hold.Hold? && !Active(w.hold, w.now) then Lift(w, w.hold.intent, io) else w
  }

  function ReadResult(w: World, k: Hook, ok: bool): Read {
    if !ok || w.hold.Unreadable? then CouldNotRead
    else if Active(w.hold, w.now) then Found(w.hold.intent)
    else None_(k.storageUnknown)
  }

  function ReadHook(k: Hook, r: Read): Hook {
    match r
    case CouldNotRead => Dispatch(k.(storageUnknown := true), FailEvent("hold unreadable", false, true, Some(false)))
    case Found(_) => k.(storageUnknown := false)
    case None_(rec) => if rec then Dispatch(k.(storageUnknown := false), Reset) else k.(storageUnknown := false)
  }

  // ---------------------------------------------------------------- one call, one step

  datatype Out = Out(w: World, k: Hook, pc: Option<Pc>)

  function Resume(k: Hook, after: After): Hook {
    match after
    case Nothing => k
    case AfterRun => if k.attempt.Paying? then Dispatch(k, NotConfirmed()) else k
    case AfterMount => k.(holdChecked := true)
  }

  function EndCheck(w: World, k: Hook, after: After): Out { Out(w, Resume(k.(checking := false), after), None) }

  function StartCheck(w: World, k: Hook, explicit: bool, after: After): Out {
    if k.checking then Out(w, Resume(k, after), None)
    else Out(w, k.(checking := true), Some(CheckRead(explicit, after)))
  }

  function OnMountRead(w: World, k: Hook, ok: bool, io: Io): Out {
    var r := ReadResult(w, k, ok);
    var (w', k') := (ReadWorld(w, ok, io), ReadHook(k, r));
    if r.Found? then StartCheck(w', k', false, AfterMount) else Out(w', k'.(holdChecked := true), None)
  }

  function OnCheckRead(w: World, k: Hook, pc: Pc, ok: bool, io: Io): Out
    requires pc.CheckRead?
  {
    var r := ReadResult(w, k, ok);
    var (w', k') := (ReadWorld(w, ok, io), ReadHook(k, r));
    match r
    case CouldNotRead => EndCheck(w', k', pc.after)
    case Found(i) => Out(w', k', Some(CheckOpen(pc.explicit, Some(i), pc.after)))
    case None_(rec) =>
      if rec then EndCheck(w', k', pc.after) else Out(w', k', Some(CheckOpen(pc.explicit, None, pc.after)))
  }

  function OnCheckOpen(w: World, k: Hook, pc: Pc, answered: bool, io: Io): Out
    requires pc.CheckOpen?
  {
    if !answered then
      if pc.held.Some? then EndCheck(WriteHold(w, pc.held.value, io), FailHeld(k, Unreachable), pc.after)
      else EndCheck(w, Dispatch(k, FailEvent("could not check", true, false, None)), pc.after)
    else if w.open.Some? && w.open.value.id in w.known then
      EndCheck(Lift(w, w.open.value.id, io), Dispatch(k, WaitingEvent()), pc.after)
    else if w.open.Some? && !w.open.value.swapping && pc.held.None? then
      EndCheck(w, Dispatch(k, WaitingEvent()), pc.after)
    else if w.open.Some? then Out(w, k, Some(CheckHash(w.open.value.id, pc.held.Some?, pc.after)))
    else if pc.held.Some? then Out(w, k, Some(CheckHash(pc.held.value, true, pc.after)))
    else if pc.explicit then
      EndCheck(w, Dispatch(k, FailEvent("nothing to continue", false, false, Some(true))), pc.after)
    else EndCheck(w, Dispatch(k, WaitingEvent()), pc.after)
  }

  function OnCheckHash(w: World, k: Hook, pc: Pc, readable: bool, io: Io): Out
    requires pc.CheckHash?
  {
    if readable && pc.intent in w.hashes then Out(w, k, Some(CheckReport(pc.intent, 0, pc.after)))
    else if pc.isHeld then EndCheck(WriteHold(w, pc.intent, io), FailHeld(k, NoHash), pc.after)
    else EndCheck(w, Dispatch(k, WaitingEvent()), pc.after)
  }

  // reportSwap, one answer: still trying, or done with how the server took the hash.
  datatype Report = Again | Reported | NotReported(why: Why)

  function AfterReport(tries: nat, a: Answer): Report {
    match a
    case Taken => Reported
    case Refused => NotReported(Rejected)
    case _ => if tries + 1 < REPORT_TRIES then Again else NotReported(Unreachable)
  }

  function ReportWorld(w: World, i: IntentId, a: Answer, io: Io): World {
    match a
    case Taken => Lift(Record(w, i), i, io)
    case Lost(taken) => if taken then Record(w, i) else w
    case _ => w
  }

  function OnCheckReport(w: World, k: Hook, pc: Pc, a: Answer, io: Io): Out
    requires pc.CheckReport?
  {
    var w' := ReportWorld(w, pc.intent, a, io);
    match AfterReport(pc.tries, a)
    case Again => Out(w', k, Some(CheckReport(pc.intent, pc.tries + 1, pc.after)))
    case Reported => EndCheck(w', Dispatch(k, WaitingEvent()), pc.after)
    case NotReported(why) => EndCheck(WriteHold(w', pc.intent, io), FailHeld(k, why), pc.after)
  }

  // The hold is read fresh; with none, the sale lock is claimed in the same step.
  function OnRunRead(w: World, k: Hook, ok: bool, evm: bool, io: Io): Out {
    var r := ReadResult(w, k, ok);
    var (w', k') := (ReadWorld(w, ok, io), ReadHook(k, r));
    match r
    case CouldNotRead => Out(w', k', None)
    case Found(_) => StartCheck(w', k', false, AfterRun)
    case None_(_) =>
      if !evm then Out(w', Dispatch(k', FailEvent("unsupported network", true, false, None)), None)
      else if AnySaleRunning(w') then
        Out(w', Dispatch(k', FailEvent("another sale is running", true, false, None)), None)
      else Out(w'.(starts := w'.starts + 1), k', Some(RunCreate(w'.now, w'.hold.NoHold?)))
  }

  function EndStart(w: World): World { w.(starts := if w.starts == 0 then 0 else w.starts - 1) }

  function OnRunCreate(w: World, k: Hook, pc: Pc, a: Answer): Out
    requires pc.RunCreate?
  {
    match a
    case Created(i) =>
      var w' := OpenNew(EndStart(w), i);
      Out(w'.(inFlight := w'.inFlight + {i}), k, Some(RunSign(i, pc.claimedAt, pc.clean)))
    case CreatedUnheard(i) => StartCheck(OpenNew(EndStart(w), i), k, false, Nothing)
    case InProgress => StartCheck(EndStart(w), k, false, Nothing)
    case PausedByServer =>
      Out(EndStart(w), Dispatch(k, Fail("paused", None, false, true, false, None, None, None)), None)
    case _ => Out(EndStart(w), Dispatch(k, FailEvent("not started", true, false, None)), None)
  }

  function Release(w: World, i: IntentId): World { w.(inFlight := w.inFlight - {i}) }

  function NotSentEvent(): Event { FailEvent("not sent", false, false, Some(true)) }

  function OnRunSign(w: World, k: Hook, pc: Pc, a: Answer, io: Io): Out
    requires pc.RunSign?
  {
    var i := pc.intent;
    match a
    case Signed =>
      var w' := WriteHold(w.(hashes := w.hashes + {i}), i, io);
      var holdAt := if w'.hold.Hold? then w'.hold.at else w.now;
      Out(w'.(swaps := w'.swaps[i := Swap(pc.claimedAt, w.now, holdAt, pc.clean)]), k, Some(RunAnswer(i)))
    case NotSigned(early, closed) =>
      var w' := if early then w else Lift(w, i, io);
      Out(Release(Abandon(w', i, closed), i), Dispatch(k, NotSentEvent()), None)
    case NotSaved(closed) =>
      var w' := Lift(if io.writes then w.(hashes := w.hashes + {i}) else w, i, io);
      Out(Release(Abandon(w', i, closed), i), Dispatch(k, NotSentEvent()), None)
    case _ => Out(w, k, Some(pc))
  }

  function OnRunAnswer(w: World, k: Hook, pc: Pc, a: Answer, io: Io): Out
    requires pc.RunAnswer?
  {
    var i := pc.intent;
    match a
    case Sent => Out(w, k, Some(RunReport(i, 0, true)))
    case Unconfirmed => Out(w, k, Some(RunReport(i, 0, false)))
    case NotSent(closed) =>
      var w' := Abandon(Lift(w.(swaps := w.swaps - {i}), i, io), i, closed);
      Out(Release(w', i), Dispatch(k, NotSentEvent()), None)
    case _ => Out(w, k, Some(pc))
  }

  function OnRunReport(w: World, k: Hook, pc: Pc, a: Answer, io: Io): Out
    requires pc.RunReport?
  {
    var w' := ReportWorld(w, pc.intent, a, io);
    match AfterReport(pc.tries, a)
    case Again => Out(w', k, Some(RunReport(pc.intent, pc.tries + 1, pc.sure)))
    case Reported => Out(Release(w', pc.intent), Dispatch(k, WaitingEvent()), None)
    case NotReported(why) => Out(Release(WriteHold(w', pc.intent, io), pc.intent), FailHeld(k, why), None)
  }

  function OnResetRead(w: World, k: Hook, ok: bool, io: Io): Out {
    var r := ReadResult(w, k, ok);
    var (w', k') := (ReadWorld(w, ok, io), ReadHook(k, r));
    match r
    case CouldNotRead => Out(w', k', None)
    case Found(_) => StartCheck(w', k', false, Nothing)
    case None_(_) => Out(w', Dispatch(k', Reset), None)
  }

  // The server takes a hash, heard or not, only for an intent it still takes one for.
  predicate CanReport(w: World, i: IntentId, a: Answer) {
    ((a.Taken? || (a.Lost? && a.taken)) && TakesHash(w, i)) || a.Refused? || (a.Lost? && !a.taken)
  }

  predicate CanAnswer(w: World, pc: Pc, a: Answer, io: Io) {
    match pc
    case MountRead => a.StorageFailed? || a.StorageRead?
    case CheckRead(_, _) => a.StorageFailed? || a.StorageRead?
    case RunRead => a.StorageFailed? || a.StorageRead?
    case ResetRead => a.StorageFailed? || a.StorageRead?
    case CheckOpen(_, _, _) => a.NoAnswer? || a.OpenIs?
    case CheckHash(_, _, _) => a.HashIs? || a.HashUnreadable?
    case CheckReport(i, _, _) => CanReport(w, i, a)
    case RunReport(i, _, _) => CanReport(w, i, a)
    case RunCreate(_, _) =>
      || ((a.Created? || a.CreatedUnheard?) && CanOpen(w, a.id))
      || a.InProgress? || a.PausedByServer? || a.NotStarted?
    case RunSign(_, _, _) =>
      a.NotSigned? || a.NotSaved? || (a.Signed? && (w.hold.Hold? || (w.hold.NoHold? && io.writes)))
    case RunAnswer(_) => a.Sent? || a.Unconfirmed? || a.NotSent?
  }

  function Answered(w: World, k: Hook, pc: Pc, a: Answer, io: Io): Out {
    var ok := a.StorageRead?;
    match pc
    case MountRead => OnMountRead(w, k, ok, io)
    case CheckRead(_, _) => OnCheckRead(w, k, pc, ok, io)
    case CheckOpen(_, _, _) => OnCheckOpen(w, k, pc, a.OpenIs?, io)
    case CheckHash(_, _, _) => OnCheckHash(w, k, pc, a.HashIs?, io)
    case CheckReport(_, _, _) => OnCheckReport(w, k, pc, a, io)
    case RunRead => OnRunRead(w, k, ok, ok && a.evm, io)
    case RunCreate(_, _) => OnRunCreate(w, k, pc, a)
    case RunSign(_, _, _) => OnRunSign(w, k, pc, a, io)
    case RunAnswer(_) => OnRunAnswer(w, k, pc, a, io)
    case RunReport(_, _, _) => OnRunReport(w, k, pc, a, io)
    case ResetRead => OnResetRead(w, k, ok, io)
  }

  // ---------------------------------------------------------------- the machine

  datatype Step =
    | Tick(ms: nat)
    | Kill
    | ServerCloses | ServerStalls | ServerLearns | PaymentEnds
    | ScreenClears(io: Io)
    | Corrupt
    | OthersRun(n: nat)
    | Mount(c: CallId, h: HookId)
    | AskCheck(c: CallId, h: HookId, explicit: bool)
    | AskRun(c: CallId, h: HookId)
    | AskReset(c: CallId, h: HookId)
    | Advance(c: CallId, a: Answer, io: Io)

  predicate Enabled(s: State, t: Step) {
    match t
    case ServerStalls => s.w.open.Some?
    case ServerLearns => s.w.open.Some?
    case ScreenClears(_) => s.w.terminal
    case Corrupt => s.w.hold.Hold?
    case Mount(c, h) => h !in s.hooks && c !in s.calls
    case AskCheck(c, h, _) => h in s.hooks && c !in s.calls
    case AskRun(c, h) => h in s.hooks && c !in s.calls
    case AskReset(c, h) => h in s.hooks && c !in s.calls
    case Advance(c, a, io) => c in s.calls && s.calls[c].hook in s.hooks && CanAnswer(s.w, s.calls[c].pc, a, io)
    case _ => true
  }

  function Install(s: State, c: CallId, h: HookId, o: Out): State {
    State(o.w, s.hooks[h := o.k], if o.pc.Some? then s.calls[c := Call(h, o.pc.value)] else s.calls - {c})
  }

  function NextWorld(w: World, t: Step): World {
    match t
    case Tick(ms) => w.(now := w.now + ms)
    case Kill => w.(inFlight := {}, starts := 0, others := 0)
    case ServerCloses => w.(open := None)
    case ServerStalls => if w.open.Some? then w.(open := Some(w.open.value.(swapping := false))) else w
    case ServerLearns => if w.open.Some? then Record(w, w.open.value.id) else w
    case PaymentEnds => w.(terminal := true)
    case ScreenClears(io) => ClearHold(w, io)
    case Corrupt => w.(hold := Unreadable)
    case OthersRun(n) => w.(others := n)
    case _ => w
  }

  function Next(s: State, t: Step): State
    requires Enabled(s, t)
  {
    match t
    case Kill => State(NextWorld(s.w, t), map[], map[])
    case Mount(c, h) => Install(s, c, h, Out(s.w, Hook(Idle, false, false, false), Some(MountRead)))
    case AskCheck(c, h, explicit) => Install(s, c, h, StartCheck(s.w, s.hooks[h], explicit, Nothing))
    case AskRun(c, h) =>
      var k := s.hooks[h];
      if k.attempt.Paying? then s
      else
        var k' := Dispatch(k, Begin);
        Install(s, c, h, Out(s.w, k', if k'.attempt.Paying? then Some(RunRead) else None))
    case AskReset(c, h) =>
      if CanReset(s.hooks[h].attempt) then Install(s, c, h, Out(s.w, s.hooks[h], Some(ResetRead))) else s
    case Advance(c, a, io) =>
      var call := s.calls[c];
      Install(s, c, call.hook, Answered(s.w, s.hooks[call.hook], call.pc, a, io))
    case _ => s.(w := NextWorld(s.w, t))
  }

  // The phone as it is found: no swap of this payment yet, whatever its storage holds.
  predicate Init(s: State) {
    && s.hooks == map[] && s.calls == map[] && s.w.swaps == map[]
    && s.w.open.None? && s.w.current.None? && s.w.known == {} && s.w.created == {}
    && s.w.inFlight == {} && s.w.starts == 0
    && (s.w.hold.Hold? ==> s.w.hold.at <= s.w.now)
  }

  ghost predicate Path(ss: seq<State>, ts: seq<Step>) {
    && |ss| == |ts| + 1
    && forall n :: 0 <= n < |ts| ==> Enabled(ss[n], ts[n]) && ss[n + 1] == Next(ss[n], ts[n])
  }

  // Some run of the app leads from one state to the other.
  ghost predicate Leads(a: State, b: State) {
    exists ss: seq<State>, ts: seq<Step> :: Path(ss, ts) && ss[0] == a && ss[|ts|] == b
  }

  ghost predicate Reachable(s: State) { exists s0 :: Init(s0) && Leads(s0, s) }
}
