// A naira merchant paid directly: one payout order's deposit sent from her wallet, and sent again when it did not
// leave (tsa-app/hooks/usePayNaira.ts, tsa-app/services/depositGuard.ts).
//
// One screen's hook. A call is cut at its awaits; reading the order together with the hold is one step, and
// following starts only from idle.
module PayNaira {
  import opened Common
  import opened PayHold
  import opened PayTypes
  import opened PayAttempt

  const TOLERANCE_BPS: nat := 200

  // What she chose and was shown: the venue's chain and token, and the price in base units.
  datatype Choice = Choice(chain: string, token: string, priced: nat)

  // Why a deposit is sent: her choice, or the order as she authorised it.
  datatype Cause = Chosen(choice: Choice) | Authorised(shown: DepositTerms)

  // A deposit that left her wallet or may have. `cover`: the time on the record that holds its order.
  datatype Moved = Moved(order: OrderId, terms: DepositTerms, wallet: Wallet, opener: Wallet, cause: Cause,
                             relayed: bool, cover: Option<nat>)

  datatype Pc =
    | Opening(choice: Choice, wallet: Wallet)
    | ToSend(order: PaycrestOrder, wallet: Wallet, cause: Cause)
    | Sent(order: PaycrestOrder, index: nat, held: bool)
    | Claiming(order: PaycrestOrder)
    | Rereading(shown: PaycrestOrder, wallet: Wallet)

  type CallId = nat

  datatype State = State(
    now: nat, hold: Stored,
    orders: map<OrderId, PaycrestOrder>, openedAt: map<OrderId, nat>, open: Option<OrderId>, final_: bool,
    address: Wallet, attempt: Attempt, calls: map<CallId, Pc>,
    deposits: seq<Moved>)

  datatype Io = Io(drops: bool, writes: bool)

  datatype Answer =
    | NotOpened(paused: bool, retryable: bool)
    | AttemptExists(read: bool)
    | Opened(order: PaycrestOrder)
    | NotBroadcast
    | SelfPaid | Relayed
    | Left | OutcomeUnknown | RefusedAnswered
    | Claimed(ok: bool)
    | NoOrder | OrderRead

  // ---------------------------------------------------------------- bounds and comparisons

  predicate ExceedsPriced(asked: nat, priced: nat) { asked * 10_000 > priced * (10_000 + TOLERANCE_BPS) }

  // orderAboveTolerance is null: the amount can be read and is within the tolerance.
  predicate WithinShown(amount: Option<Figure>, priced: nat) {
    amount.Some? && amount.value.units.Some? && !ExceedsPriced(amount.value.units.value, priced)
  }

  predicate SameDeposit(shown: DepositTerms, now: DepositTerms) {
    shown.chain == now.chain && shown.token == now.token &&
    now.address.Some? && shown.address == now.address && now.amount.Some? &&
    shown.amount.Some? && shown.amount.value.text == now.amount.value.text
  }

  // ---------------------------------------------------------------- the hold

  function ClearHold(s: State, io: Io): State { if io.drops then s.(hold := NoHold) else s }

  // The guard's hold(): another order's record is replaced, this order's own keeps its time.
  function TakeHold(s: State, o: OrderId, io: Io): State {
    var s1 := if s.hold.Hold? && s.hold.intent != o then ClearHold(s, io) else s;
    if s1.hold.NoHold? && io.writes then s1.(hold := Hold(o, s1.now)) else s1
  }

  // It throws when the store cannot be read, or there is nothing there and it cannot be written.
  predicate CanHold(s: State, o: OrderId, io: Io) {
    !s.hold.Unreadable? && (io.writes || !TakeHold(s, o, io).hold.NoHold?)
  }

  function CoverOf(h: Stored, o: OrderId): Option<nat> { if h.Hold? && h.intent == o then Some(h.at) else None }

  predicate MayBeOut(s: State, o: OrderId) { s.hold.Unreadable? || (Active(s.hold, s.now) && s.hold.intent == o) }

  predicate StillToSend(s: State, o: PaycrestOrder) { o.awaitingDeposit && !o.claimed && !MayBeOut(s, o.id) }

  // ---------------------------------------------------------------- dispatches

  function Dispatch(s: State, e: Event): State { s.(attempt := Reduce(s.attempt, e)) }

  function FailNow(retryable: bool, paused: bool): Event {
    Fail("failed", None, retryable, paused, false, None, None, None)
  }

  function WaitOn(o: PaycrestOrder): Event { Handed(None, Some(o), None) }

  function End(s: State, c: CallId): State { s.(calls := s.calls - {c}) }

  function Go(s: State, c: CallId, pc: Pc): State { s.(calls := s.calls[c := pc]) }

  // ---------------------------------------------------------------- one call, one step

  // payDirect answered: checked against what she chose and was shown before anything is signed.
  function OnOpened(s: State, c: CallId, pc: Pc, o: PaycrestOrder): State
    requires pc.Opening?
  {
    var s1 := s.(orders := s.orders[o.id := o], openedAt := s.openedAt[o.id := s.now], open := Some(o.id));
    if o.terms.chain != pc.choice.chain || o.terms.token != pc.choice.token then
      End(Dispatch(s1, FailNow(false, false)), c)
    else if !WithinShown(o.terms.amount, pc.choice.priced) then End(Dispatch(s1, FailNow(false, false)), c)
    else Go(Dispatch(s1, Progress(StageIdle, Some(o))), c, ToSend(o, pc.wallet, Chosen(pc.choice)))
  }

  function OnSend(s: State, c: CallId, pc: Pc, a: Answer, io: Io): State
    requires pc.ToSend?
  {
    var o := pc.order;
    if a.SelfPaid? then
      var s1 := TakeHold(s, o.id, io);
      var d := Moved(o.id, o.terms, pc.wallet, o.wallet, pc.cause, false, CoverOf(s1.hold, o.id));
      Go(s1.(deposits := s1.deposits + [d]), c, Sent(o, |s.deposits|, true))
    else if a.Relayed? then
      var d := Moved(o.id, o.terms, pc.wallet, o.wallet, pc.cause, true, None);
      Go(s.(deposits := s.deposits + [d]), c, Sent(o, |s.deposits|, false))
    else End(Dispatch(s, AwaitDeposit(o, Some("not sent"))), c)
  }

  // The guard's holdAfter(): a relayed deposit is recorded now, if it can be.
  function HoldAfter(s: State, o: OrderId, n: nat, io: Io): State
    requires n < |s.deposits|
  {
    var s1 := TakeHold(s, o, io);
    s1.(deposits := s.deposits[n := s.deposits[n].(cover := CoverOf(s1.hold, o))])
  }

  // The send is answered.
  function OnSent(s: State, c: CallId, pc: Pc, a: Answer, io: Io): State
    requires pc.Sent? && pc.index < |s.deposits|
  {
    var o := pc.order;
    if a.RefusedAnswered? then
      var s1 := if pc.held then ClearHold(s, io) else s;
      End(Dispatch(s1.(deposits := s.deposits[..pc.index] + s.deposits[pc.index + 1..]),
          AwaitDeposit(o, Some("refused"))), c)
    else
      var s1 := if pc.held then s else HoldAfter(s, o.id, pc.index, io);
      if a.OutcomeUnknown? then End(Dispatch(s1, Handed(None, Some(o), Some("not known"))), c)
      else Go(s1, c, Claiming(o))
  }

  function OnClaim(s: State, c: CallId, pc: Pc, ok: bool): State
    requires pc.Claiming?
  {
    var i := pc.order.id;
    var s1 := if ok && i in s.orders then s.(orders := s.orders[i := s.orders[i].(claimed := true)]) else s;
    End(Dispatch(s1, WaitOn(pc.order)), c)
  }

  function OnReread(s: State, c: CallId, pc: Pc, read: bool): State
    requires pc.Rereading?
  {
    if !read || pc.shown.id !in s.orders then End(Dispatch(s, AwaitDeposit(pc.shown, Some("could not check"))), c)
    else
      var reread := s.orders[pc.shown.id];
      if !StillToSend(s, reread) then End(Dispatch(s, WaitOn(reread)), c)
      else if reread.wallet != pc.wallet then End(Dispatch(s, AwaitDeposit(reread, Some("other wallet"))), c)
      else if !SameDeposit(pc.shown.terms, reread.terms) then
        End(Dispatch(s, AwaitDeposit(reread, Some("order changed"))), c)
      else
        var s1 := Dispatch(s, Progress(SellStage.Sending, Some(reread)));
        Go(s1, c, ToSend(reread, pc.wallet, Authorised(pc.shown.terms)))
  }

  // followDirect: only reads.
  function Followed(s: State, read: bool): Event {
    if !read then FailNow(true, false)
    else if s.open.None? || s.open.value !in s.orders then Handed(None, None, None)
    else if StillToSend(s, s.orders[s.open.value]) then AwaitDeposit(s.orders[s.open.value], None)
    else WaitOn(s.orders[s.open.value])
  }

  // The server relays an order's deposit once.
  predicate RelayedBefore(s: State, o: OrderId) {
    exists i :: 0 <= i < |s.deposits| && s.deposits[i].order == o && s.deposits[i].relayed
  }

  // One order of the payment waits for a deposit at a time, and a new one is never an old one: no record names it.
  predicate CanOpen(s: State, pc: Pc, o: PaycrestOrder)
    requires pc.Opening?
  {
    s.open.None? && !s.final_ && o.id !in s.orders && (s.hold.Hold? ==> s.hold.intent != o.id) &&
    o.awaitingDeposit && !o.claimed && o.wallet == pc.wallet
  }

  predicate CanAnswer(s: State, pc: Pc, a: Answer, io: Io) {
    match pc
    case Opening(_, _) => a.NotOpened? || a.AttemptExists? || (a.Opened? && CanOpen(s, pc, a.order))
    case ToSend(o, _, _) => a.NotBroadcast? || (a.SelfPaid? && CanHold(s, o.id, io)) ||
        (a.Relayed? && !RelayedBefore(s, o.id))
    case Sent(_, i, _) => i < |s.deposits| && (a.Left? || a.OutcomeUnknown? || a.RefusedAnswered?)
    case Claiming(_) => a.Claimed?
    case Rereading(_, _) => a.NoOrder? || a.OrderRead?
  }

  function Answered(s: State, c: CallId, pc: Pc, a: Answer, io: Io): State
    requires CanAnswer(s, pc, a, io)
  {
    match pc
    case Opening(_, _) =>
      if a.Opened? then OnOpened(s, c, pc, a.order)
      else End(Dispatch(s, if a.AttemptExists? then Followed(s, a.read) else FailNow(a.retryable, a.paused)), c)
    case ToSend(_, _, _) => OnSend(s, c, pc, a, io)
    case Sent(_, _, _) => OnSent(s, c, pc, a, io)
    case Claiming(_) => OnClaim(s, c, pc, a.ok)
    case Rereading(_, _) => OnReread(s, c, pc, a.OrderRead?)
  }

  // ---------------------------------------------------------------- the machine

  datatype Step =
    | Tick(ms: nat)
    | Kill
    | SwitchWallet(to: Wallet)
    | ServerCloses
    | ServerAmends(terms: DepositTerms)
    | PaymentEnds
    | ScreenClears(io: Io)
    | Corrupt
    | Release
    | Follow(read: bool)
    | AskPay(c: CallId, choice: Choice)
    | AskSend(c: CallId, shown: PaycrestOrder)
    | Advance(c: CallId, a: Answer, io: Io)

  predicate Enabled(s: State, t: Step) {
    match t
    case ServerCloses => s.open.Some? && s.open.value in s.orders
    case ServerAmends(_) => s.open.Some? && s.open.value in s.orders
    case ScreenClears(_) => s.final_ && s.open.None?
    case PaymentEnds => s.open.None?
    case Corrupt => s.hold.Hold?
    case Follow(_) => s.attempt.Idle?
    case AskPay(c, _) => c !in s.calls
    case AskSend(c, _) => c !in s.calls
    case Advance(c, a, io) => c in s.calls && CanAnswer(s, s.calls[c], a, io)
    case _ => true
  }

  function Begun(s: State, c: CallId, pc: Pc): State {
    if s.attempt.Paying? then s
    else
      var s1 := Dispatch(s, Begin);
      if s1.attempt.Paying? then Go(s1, c, pc) else s1
  }

  function Next(s: State, t: Step): State
    requires Enabled(s, t)
  {
    match t
    case Tick(ms) => s.(now := s.now + ms)
    case Kill => s.(attempt := Idle, calls := map[])
    case SwitchWallet(to) => s.(address := to)
    case ServerCloses =>
      s.(open := None, orders := s.orders[s.open.value := s.orders[s.open.value].(awaitingDeposit := false)])
    case ServerAmends(terms) => s.(orders := s.orders[s.open.value := s.orders[s.open.value].(terms := terms)])
    case PaymentEnds => s.(final_ := true)
    case ScreenClears(io) => ClearHold(s, io)
    case Corrupt => s.(hold := Unreadable)
    case Release => Dispatch(s, Reset)
    case Follow(read) => Dispatch(s, Followed(s, read))
    case AskPay(c, choice) => Begun(s, c, Opening(choice, s.address))
    case AskSend(c, shown) => Begun(s, c, Rereading(shown, s.address))
    case Advance(c, a, io) => Answered(s, c, s.calls[c], a, io)
  }

  predicate Init(s: State) {
    s.orders == map[] && s.openedAt == map[] && s.open.None? && s.attempt.Idle? && s.calls == map[] &&
    s.deposits == [] &&
    (s.hold.Hold? ==> s.hold.at <= s.now)
  }

  ghost predicate Path(ss: seq<State>, ts: seq<Step>) {
    && |ss| == |ts| + 1
    && forall n :: 0 <= n < |ts| ==> Enabled(ss[n], ts[n]) && ss[n + 1] == Next(ss[n], ts[n])
  }

  // Some run of the app leads from one state to the other.
  ghost predicate Leads(a: State, b: State) {
    exists ss: seq<State>, ts: seq<Step> :: Path(ss, ts) && ss[0] == a && ss[|ts|] == b
  }

  ghost predicate Reachable(s: State) { exists s0 :: Init(s0) && Leads(s0, s) }
}
