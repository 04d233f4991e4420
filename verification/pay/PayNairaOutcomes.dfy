// What each answer does to a direct naira payment: what is sent, what is stored and what the screen shows.
module PayNairaOutcomes {
  import opened Common
  import opened PayHold
  import opened PayTypes
  import opened PayAttempt
  import opened PayNaira

  predicate Unpaused(a: Attempt) { !(a.Failed? && (a.paused || a.held)) }

  // The deposit of this order waits for her; or the server is waited on, with this order.
  predicate ToDeposit(a: Attempt, o: PaycrestOrder) { ViewOf(a).stage == AtDeposit && ViewOf(a).order == Some(o) }

  predicate Waits(a: Attempt, o: Option<PaycrestOrder>) { ViewOf(a).stage == AtWaiting && ViewOf(a).order == o }

  predicate Ended(s: State, s': State, c: CallId) { s'.calls == s.calls - {c} }

  // She pays what the payment opened exactly when it is for the chain and token she chose and its amount can be read
  // and is at most 2 % over the price she was shown; else nothing leaves, and neither Pay nor Continue is offered.
  lemma OpenedShows(s: State, c: CallId, pc: Pc, o: PaycrestOrder)
    requires pc.Opening? && Unpaused(s.attempt)
    ensures var s' := OnOpened(s, c, pc, o); var a, v := s'.attempt, ViewOf(s'.attempt);
            var terms, ch := o.terms, pc.choice;
            var right := terms.chain == ch.chain && terms.token == ch.token && terms.amount.Some? &&
                         terms.amount.value.units.Some? && terms.amount.value.units.value * 100 <= ch.priced * 102;
            s'.deposits == s.deposits && s'.hold == s.hold && s'.open == Some(o.id) &&
            s'.orders == s.orders[o.id := o] &&
            (if right
             then s'.calls == s.calls[c := ToSend(o, pc.wallet, Chosen(ch))] && a.Paying? && v.order == Some(o)
             else Ended(s, s', c) && v.stage == AtFailed && !v.retryable && !v.canContinue && !a.paused)
  {
    hide Reduce, ViewOf;
    GoesOnShown(s.attempt, StageIdle, o);
    FailShown(s.attempt, false, false);
  }

  // What is sent is this order's deposit, from this wallet, for this cause; what was not broadcast is to be sent still.
  lemma SendShows(s: State, c: CallId, pc: Pc, a: Answer, io: Io)
    requires pc.ToSend? && Unpaused(s.attempt) && CanAnswer(s, pc, a, io)
    ensures var s', o := OnSend(s, c, pc, a, io), pc.order; s'.orders == s.orders && s'.open == s.open
    ensures var s', o := OnSend(s, c, pc, a, io), pc.order;
            a.NotBroadcast? ==>
              Ended(s, s', c) && ToDeposit(s'.attempt, o) && s'.deposits == s.deposits && s'.hold == s.hold
    ensures var s', o, n := OnSend(s, c, pc, a, io), pc.order, |s.deposits|;
            !a.NotBroadcast? ==>
              |s'.deposits| == n + 1 && s'.deposits[..n] == s.deposits && s'.attempt == s.attempt &&
              s'.calls == s.calls[c := Sent(o, n, a.SelfPaid?)] &&
              s'.deposits[n] == Moved(o.id, o.terms, pc.wallet, o.wallet, pc.cause, a.Relayed?, s'.deposits[n].cover) &&
              (a.Relayed? ==> s'.hold == s.hold && s'.deposits[n].cover.None?)
  {
    hide Reduce, ViewOf;
    DepositShown(s.attempt, pc.order, Some("not sent"));
  }

  // She pays the deposit herself only with a store that can be read, and a record of its order or of another in it, or
  // one that was written: with an unreadable store, or an empty one that cannot be written, nothing is sent.
  lemma SelfPaidNeedsARecord(s: State, pc: Pc, io: Io)
    requires pc.ToSend?
    ensures CanAnswer(s, pc, SelfPaid, io) <==>
              !s.hold.Unreadable? &&
              (io.writes || (s.hold.Hold? && (s.hold.intent == pc.order.id || !io.drops)))
    ensures CanAnswer(s, pc, SelfPaid, io) ==>
              var h := TakeHold(s, pc.order.id, io).hold;
              h.Hold? && (io.writes && (s.hold.NoHold? || io.drops) ==> h.intent == pc.order.id)
  {
  }

  lemma DepositShown(a: Attempt, o: PaycrestOrder, why: Option<string>)
    requires Unpaused(a)
    ensures ToDeposit(Reduce(a, AwaitDeposit(o, why)), o)
  {
  }

  lemma WaitShown(a: Attempt, o: Option<PaycrestOrder>, note: Option<string>)
    requires Unpaused(a)
    ensures Waits(Reduce(a, Handed(None, o, note)), o)
  {
  }

  // Refused, nothing left her wallet: a self-paid send's record goes and the order is to be sent still. Left or not
  // known, the order is waited on, never offered again, and claimed when it left.
  lemma SentShows(s: State, c: CallId, pc: Pc, a: Answer, io: Io)
    requires pc.Sent? && Unpaused(s.attempt) && CanAnswer(s, pc, a, io)
    ensures OnSent(s, c, pc, a, io).orders == s.orders
    ensures var s', o, n := OnSent(s, c, pc, a, io), pc.order, pc.index;
            a.RefusedAnswered? ==>
              Ended(s, s', c) && ToDeposit(s'.attempt, o) && s'.deposits == s.deposits[..n] + s.deposits[n + 1..] &&
              s'.hold == if pc.held && io.drops then NoHold else s.hold
    ensures var s', o := OnSent(s, c, pc, a, io), pc.order;
            !a.RefusedAnswered? ==>
              |s'.deposits| == |s.deposits| && (pc.held ==> s'.deposits == s.deposits && s'.hold == s.hold) &&
              (a.OutcomeUnknown? ==> Ended(s, s', c) && Waits(s'.attempt, Some(o))) &&
              (a.Left? ==> s'.calls == s.calls[c := Claiming(o)] && s'.attempt == s.attempt)
  {
    hide Reduce, ViewOf;
    DepositShown(s.attempt, pc.order, Some("refused"));
    WaitShown(s.attempt, Some(pc.order), Some("not known"));
  }

  // A claim that worked is on the order; a lost one changes nothing; either way the order is waited on.
  lemma ClaimShows(s: State, c: CallId, pc: Pc, ok: bool)
    requires pc.Claiming? && Unpaused(s.attempt) && pc.order.id in s.orders
    ensures var s', i := OnClaim(s, c, pc, ok), pc.order.id;
            Ended(s, s', c) && Waits(s'.attempt, Some(pc.order)) && s'.deposits == s.deposits && s'.hold == s.hold &&
            s'.orders == if ok then s.orders[i := s.orders[i].(claimed := true)] else s.orders
  {
    hide Reduce, ViewOf;
    WaitShown(s.attempt, Some(pc.order), None);
  }

  // "Send again" goes on exactly for an order that was read, waits, is not claimed and has nothing of its own held or
  // unreadable, from the wallet that opened it, for the chain, token, address and amount she was shown. What may be
  // out is waited on; anything else is shown as it is now, to be sent still.
  lemma RereadShows(s: State, c: CallId, pc: Pc, read: bool)
    requires pc.Rereading? && Unpaused(s.attempt) && pc.shown.id in s.orders && s.orders[pc.shown.id].id == pc.shown.id
    ensures var s', o := OnReread(s, c, pc, read), s.orders[pc.shown.id]; var was, now := pc.shown.terms, o.terms;
            var out := s.hold.Unreadable? ||
                       (s.hold.Hold? && s.hold.intent == pc.shown.id && s.now <= s.hold.at + 86_400_000);
            var same := was.chain == now.chain && was.token == now.token &&
                        now.address.Some? && was.address == now.address &&
                        now.amount.Some? && was.amount.Some? && was.amount.value.text == now.amount.value.text;
            s'.deposits == s.deposits && s'.hold == s.hold && s'.orders == s.orders &&
            if !read then Ended(s, s', c) && ToDeposit(s'.attempt, pc.shown)
            else if !o.awaitingDeposit || o.claimed || out then Ended(s, s', c) && Waits(s'.attempt, Some(o))
            else if o.wallet != pc.wallet || !same then Ended(s, s', c) && ToDeposit(s'.attempt, o)
            else s'.calls == s.calls[c := ToSend(o, pc.wallet, Authorised(was))] && s'.attempt.Paying? &&
                 ViewOf(s'.attempt).order == Some(o)
  {
    hide Reduce, ViewOf;
    var o := s.orders[pc.shown.id];
    DepositShown(s.attempt, pc.shown, Some("could not check"));
    DepositShown(s.attempt, o, Some("other wallet"));
    DepositShown(s.attempt, o, Some("order changed"));
    WaitShown(s.attempt, Some(o), None);
    GoesOnShown(s.attempt, SellStage.Sending, o);
  }

  lemma GoesOnShown(a: Attempt, stage: SellStage, o: PaycrestOrder)
    requires Unpaused(a)
    ensures var b := Reduce(a, Progress(stage, Some(o))); b.Paying? && ViewOf(b).order == Some(o)
  {
  }

  // A start the server refused, paused or let be tried again.
  lemma FailShown(a: Attempt, retryable: bool, paused: bool)
    requires Unpaused(a)
    ensures var b := Reduce(a, FailNow(retryable, paused)); var v := ViewOf(b);
            v.stage == AtFailed && v.retryable == retryable && b.paused == paused && !v.canContinue && !b.held
  {
  }

  // Following an order only reads: it is shown to be sent exactly when it waits, is not claimed and nothing of its own
  // may be out; else it is waited on. A read that fails offers Pay again.
  lemma FollowShows(s: State, read: bool)
    requires Unpaused(s.attempt)
    requires s.open.Some? ==> s.open.value in s.orders && s.orders[s.open.value].id == s.open.value
    ensures var a := Reduce(s.attempt, Followed(s, read));
            if !read then ViewOf(a).stage == AtFailed && ViewOf(a).retryable && !a.paused
            else if s.open.None? then Waits(a, None)
            else
              var o := s.orders[s.open.value];
              var out := s.hold.Unreadable? ||
                         (s.hold.Hold? && s.hold.intent == o.id && s.now <= s.hold.at + 86_400_000);
              if o.awaitingDeposit && !o.claimed && !out then ToDeposit(a, o) else Waits(a, Some(o))
  {
  }

  // A payment or a "send again" starts only with no attempt in flight and none the server paused, with what she asked
  // for and the wallet of the moment.
  lemma AskShows(s: State, t: Step)
    requires Enabled(s, t) && (t.AskPay? || t.AskSend?)
    ensures var s' := Next(s, t);
            if s.attempt.Paying? || (s.attempt.Failed? && s.attempt.paused) then s' == s
            else s'.attempt == Paying(false, None, None, false) &&
                 s' == s.(attempt := s'.attempt, calls := s.calls[t.c := if t.AskPay? then Opening(t.choice, s.address)
                                                                          else Rereading(t.shown, s.address)])
  {
  }

  // What goes on around the calls touches one thing each.
  lemma AroundTheCalls(s: State, t: Step)
    requires Enabled(s, t)
    ensures var s' := Next(s, t);
      match t
      case Tick(ms) => s'.now == s.now + ms && s' == s.(now := s'.now)
      case Kill => s'.attempt.Idle? && s'.calls == map[] && s' == s.(attempt := Idle, calls := map[])
      case SwitchWallet(other) => s'.address == other && s' == s.(address := other)
      case ServerCloses => s'.open.None? && !s'.orders[s.open.value].awaitingDeposit && s'.hold == s.hold
      case ServerAmends(terms) => s'.orders[s.open.value].terms == terms && s'.open == s.open && s'.hold == s.hold
      case PaymentEnds => s'.final_ && s' == s.(final_ := true)
      case ScreenClears(io) => (io.drops ==> s'.hold.NoHold?) && s' == s.(hold := s'.hold)
      case Corrupt => s'.hold.Unreadable? && s' == s.(hold := s'.hold)
      case _ => true
  {
    hide Reduce;
  }
}
