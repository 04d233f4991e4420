// What every step of the direct naira payment keeps: no order's deposit leaves twice while its hold lasts, and
// none leaves that she did not choose or authorise.
module PayNairaSafety {
  import opened Common
  import opened PayHold
  import opened PayTypes
  import opened PayAttempt
  import opened PayNaira

  // A deposit that no longer stands in the way: no record covers it, or the record is more than 24 h old.
  predicate Spent(s: State, d: Moved) { d.cover.None? || s.now > d.cover.value + HOLD_MAX_MS }

  // What she chose within the price she was shown, or the order as she authorised it; from the wallet that
  // opened it.
  predicate Rightful(terms: DepositTerms, wallet: Wallet, opener: Wallet, cause: Cause) {
    && wallet == opener
    && match cause
       case Chosen(ch) => terms.chain == ch.chain && terms.token == ch.token && WithinShown(terms.amount, ch.priced)
       case Authorised(shown) => SameDeposit(shown, terms)
  }

  ghost predicate OrdersInv(s: State) {
    && (s.open.Some? ==> s.open.value in s.orders && !s.final_)
    && (forall i <- s.orders :: s.orders[i].id == i && (s.orders[i].awaitingDeposit ==> s.open == Some(i)))
    && (s.hold.Hold? ==> s.hold.at <= s.now)
  }

  predicate Awaiting(s: State, i: OrderId) { i in s.orders && s.orders[i].awaitingDeposit }

  // While its order waits, a covered deposit's own record is there, until it is spent.
  ghost predicate DepositInv(s: State, d: Moved) {
    && d.order in s.orders && Rightful(d.terms, d.wallet, d.opener, d.cause)
    && (d.cover.Some? ==> d.cover.value <= s.now)
    && (Spent(s, d) || !Awaiting(s, d.order) || s.hold.Unreadable? || s.hold == Hold(d.order, d.cover.value))
  }

  // All deposits of an order below position n are spent.
  ghost predicate SpentBelow(s: State, o: OrderId, n: nat) {
    forall i :: 0 <= i < n <= |s.deposits| && s.deposits[i].order == o ==> Spent(s, s.deposits[i])
  }

  ghost predicate OnlyOpen(s: State, o: OrderId) { s.open.None? || s.open == Some(o) }

  // Nothing of the order's own is held and active.
  predicate Unheld(s: State, o: OrderId) { s.hold.Hold? && s.hold.intent == o ==> !Active(s.hold, s.now) }

  ghost predicate PcInv(s: State, pc: Pc) {
    match pc
    case ToSend(o, w, cause) =>
      Unheld(s, o.id) && o.id in s.orders && OnlyOpen(s, o.id) && Rightful(o.terms, w, o.wallet, cause) &&
          SpentBelow(s, o.id, |s.deposits|)
    case Sent(o, i, held) =>
      (!held ==> Unheld(s, o.id)) && o.id in s.orders && OnlyOpen(s, o.id) && i + 1 == |s.deposits| &&
          s.deposits[i].order == o.id && SpentBelow(s, o.id, i)
    case _ => true
  }

  ghost predicate Inv(s: State) {
    && OrdersInv(s)
    && (forall i :: 0 <= i < |s.deposits| ==> DepositInv(s, s.deposits[i]))
    && (forall c <- s.calls :: s.attempt.Paying? && PcInv(s, s.calls[c]))
    && (forall c <- s.calls, d <- s.calls :: c == d)
  }

  // ---------------------------------------------------------------- steps

  // The invariant but for the calls.
  ghost predicate WorldInv(s: State) {
    OrdersInv(s) && forall i :: 0 <= i < |s.deposits| ==> DepositInv(s, s.deposits[i])
  }

  lemma TakeHoldKeeps(s: State, o: OrderId, io: Io)
    requires Inv(s) && OnlyOpen(s, o) && o in s.orders && SpentBelow(s, o, |s.deposits|)
    ensures WorldInv(TakeHold(s, o, io))
    ensures TakeHold(s, o, io) == s.(hold := TakeHold(s, o, io).hold)
    ensures SpentBelow(TakeHold(s, o, io), o, |s.deposits|)
  {
  }

  lemma OpenedKeeps(s: State, c: CallId, pc: Pc, o: PaycrestOrder)
    requires Inv(s) && c in s.calls && s.calls[c] == pc && pc.Opening? && CanOpen(s, pc, o)
    ensures Inv(OnOpened(s, c, pc, o))
  {
  }

  lemma SendKeeps(s: State, c: CallId, pc: Pc, a: Answer, io: Io)
    requires Inv(s) && c in s.calls && s.calls[c] == pc && pc.ToSend? && CanAnswer(s, pc, a, io)
    ensures Inv(OnSend(s, c, pc, a, io))
  {
    var s', o := OnSend(s, c, pc, a, io), pc.order;
    assert PcInv(s, pc);
    if a.SelfPaid? {
      TakeHoldKeeps(s, o.id, io);
      var s1 := TakeHold(s, o.id, io);
      assert forall i :: 0 <= i < |s.deposits| ==> s'.deposits[i] == s1.deposits[i];
      forall i | 0 <= i < |s'.deposits| ensures DepositInv(s', s'.deposits[i]) {
        if i < |s.deposits| { assert DepositInv(s1, s1.deposits[i]); }
      }
      assert SpentBelow(s', o.id, |s.deposits|);
    } else if a.Relayed? {
      forall i | 0 <= i < |s'.deposits| ensures DepositInv(s', s'.deposits[i]) {
        if i < |s.deposits| { assert DepositInv(s, s.deposits[i]); }
      }
      assert SpentBelow(s', o.id, |s.deposits|);
    } else {
      forall i | 0 <= i < |s'.deposits| ensures DepositInv(s', s'.deposits[i]) { assert DepositInv(s, s.deposits[i]); }
    }
  }

  lemma RefusedKeeps(s: State, c: CallId, pc: Pc, a: Answer, io: Io)
    requires Inv(s) && c in s.calls && s.calls[c] == pc && pc.Sent? && CanAnswer(s, pc, a, io) && a.RefusedAnswered?
    ensures Inv(OnSent(s, c, pc, a, io))
  {
    var s', o, n := OnSent(s, c, pc, a, io), pc.order, pc.index;
    assert PcInv(s, pc);
    assert s'.deposits == s.deposits[..n];
    forall i | 0 <= i < n ensures DepositInv(s', s'.deposits[i]) {
      assert DepositInv(s, s.deposits[i]);
      if s.deposits[i].order == o.id { assert Spent(s, s.deposits[i]); }
    }
  }

  // Ending the only call leaves the rest as it was.
  lemma EndKeeps(s: State, c: CallId, e: Event)
    requires WorldInv(s) && forall d <- s.calls :: d == c
    ensures Inv(End(Dispatch(s, e), c))
  {
  }

  lemma HoldAfterKeeps(s: State, o: OrderId, n: nat, io: Io)
    requires WorldInv(s) && OnlyOpen(s, o) && o in s.orders && n + 1 == |s.deposits|
    requires s.deposits[n].order == o && SpentBelow(s, o, n)
    ensures WorldInv(HoldAfter(s, o, n, io))
  {
    var s' := HoldAfter(s, o, n, io);
    forall i | 0 <= i < |s'.deposits| ensures DepositInv(s', s'.deposits[i]) {
      assert DepositInv(s, s.deposits[i]);
      if i < n && s.deposits[i].order == o { assert Spent(s, s.deposits[i]); }
    }
  }

  lemma SentKeeps(s: State, c: CallId, pc: Pc, a: Answer, io: Io)
    requires Inv(s) && c in s.calls && s.calls[c] == pc && pc.Sent? && CanAnswer(s, pc, a, io) && !a.RefusedAnswered?
    ensures Inv(OnSent(s, c, pc, a, io))
  {
    hide Reduce, DepositInv, OrdersInv, Spent, TakeHold;
    var o, n := pc.order, pc.index;
    assert PcInv(s, pc);
    HoldAfterKeeps(s, o.id, n, io);
    TakeHoldIsHold(s, o.id, io);
    var s2 := if pc.held then s else HoldAfter(s, o.id, n, io);
    assert WorldInv(s2) && s2.calls == s.calls && s2.attempt == s.attempt;
    if a.OutcomeUnknown? {
      EndKeeps(s2, c, Handed(None, Some(o), Some("not known")));
      assert OnSent(s, c, pc, a, io) == End(Dispatch(s2, Handed(None, Some(o), Some("not known"))), c);
    } else {
      GoKeeps(s2, c, Claiming(o));
      assert OnSent(s, c, pc, a, io) == Go(s2, c, Claiming(o));
    }
  }

  lemma TakeHoldIsHold(s: State, o: OrderId, io: Io)
    ensures TakeHold(s, o, io) == s.(hold := TakeHold(s, o, io).hold)
  {
  }

  // Carrying the only call on leaves the rest as it was.
  lemma GoKeeps(s: State, c: CallId, pc: Pc)
    requires WorldInv(s) && s.attempt.Paying? && PcInv(s, pc) && forall d <- s.calls :: d == c
    ensures Inv(Go(s, c, pc))
  {
  }

  lemma ClaimKeeps(s: State, c: CallId, pc: Pc, ok: bool)
    requires Inv(s) && c in s.calls && s.calls[c] == pc && pc.Claiming?
    ensures Inv(OnClaim(s, c, pc, ok))
  {
  }

  // Reading the order with the hold: what is still to send has only spent deposits behind it.
  lemma StillToSendIsFree(s: State, i: OrderId)
    requires WorldInv(s) && i in s.orders && StillToSend(s, s.orders[i])
    ensures Unheld(s, i) && OnlyOpen(s, i) && SpentBelow(s, i, |s.deposits|)
  {
    forall n | 0 <= n < |s.deposits| && s.deposits[n].order == i ensures Spent(s, s.deposits[n]) {
      assert DepositInv(s, s.deposits[n]);
    }
  }

  // The attempt alone is no part of the world.
  lemma DispatchKeepsWorld(s: State, e: Event)
    requires WorldInv(s)
    ensures WorldInv(Dispatch(s, e))
  {
    hide Reduce;
    var s' := Dispatch(s, e);
    forall n | 0 <= n < |s'.deposits| ensures DepositInv(s', s'.deposits[n]) { assert DepositInv(s, s.deposits[n]); }
  }

  lemma RereadKeeps(s: State, c: CallId, pc: Pc, read: bool)
    requires Inv(s) && c in s.calls && s.calls[c] == pc && pc.Rereading?
    ensures Inv(OnReread(s, c, pc, read))
  {
    hide Reduce, WorldInv, Inv, PcInv, StillToSend, SameDeposit;
    assert WorldInv(s) && s.attempt.Paying? && forall d <- s.calls :: d == c by { OnlyCall(s, c); }
    var i := pc.shown.id;
    forall e { EndKeeps(s, c, e); }
    if read && i in s.orders && StillToSend(s, s.orders[i]) && s.orders[i].wallet == pc.wallet &&
       SameDeposit(pc.shown.terms, s.orders[i].terms) {
      RereadGoesOn(s, c, pc);
    }
  }

  lemma OnlyCall(s: State, c: CallId)
    requires Inv(s) && c in s.calls
    ensures WorldInv(s) && s.attempt.Paying? && forall d <- s.calls :: d == c
  {
  }

  lemma RereadGoesOn(s: State, c: CallId, pc: Pc)
    requires WorldInv(s) && s.attempt.Paying? && (forall d <- s.calls :: d == c) && pc.Rereading?
    requires pc.shown.id in s.orders
    requires var o := s.orders[pc.shown.id];
             StillToSend(s, o) && o.wallet == pc.wallet && SameDeposit(pc.shown.terms, o.terms)
    ensures Inv(OnReread(s, c, pc, true))
  {
    hide DepositInv, Spent, StillToSend, SameDeposit;
    var i := pc.shown.id;
    var o, e := s.orders[i], Progress(SellStage.Sending, Some(s.orders[i]));
    StillToSendIsFree(s, i);
    DispatchKeepsWorld(s, e);
    var s1, to_ := Dispatch(s, e), ToSend(o, pc.wallet, Authorised(pc.shown.terms));
    assert SpentBelow(s1, i, |s1.deposits|) by { SameSpent(s, s1, i); }
    GoKeeps(s1, c, to_);
  }

  lemma SameSpent(s: State, s': State, i: OrderId)
    requires s'.now == s.now && s'.deposits == s.deposits && SpentBelow(s, i, |s.deposits|)
    ensures SpentBelow(s', i, |s'.deposits|)
  {
    forall n | 0 <= n < |s'.deposits| && s'.deposits[n].order == i ensures Spent(s', s'.deposits[n]) {
      assert Spent(s, s.deposits[n]);
    }
  }

  // Nothing about the world changes when only the attempt does, or a call starts from nothing.
  lemma AttemptOnlyKeeps(s: State, e: Event)
    requires Inv(s) && (e.Begin? || e.Reset? || s.attempt.Idle?)
    ensures Inv(Dispatch(s, e))
  {
  }

  lemma SamePc(s: State, s': State, pc: Pc)
    requires PcInv(s, pc) && s'.now >= s.now && s'.deposits == s.deposits && (s'.hold == s.hold || !s'.hold.Hold?)
    requires forall i <- s.orders :: i in s'.orders
    requires s'.open == s.open || s'.open.None?
    ensures PcInv(s', pc)
  {
  }

  lemma BegunKeeps(s: State, c: CallId, pc: Pc)
    requires Inv(s) && (pc.Opening? || pc.Rereading?)
    ensures Inv(Begun(s, c, pc))
  {
    if !s.attempt.Paying? {
      AttemptOnlyKeeps(s, Begin);
      assert s.calls == map[];
      var s1, s' := Dispatch(s, Begin), Begun(s, c, pc);
      forall i | 0 <= i < |s'.deposits| ensures DepositInv(s', s'.deposits[i]) {
        assert DepositInv(s1, s1.deposits[i]);
      }
    }
  }

  predicate Outside(t: Step) { !t.Advance? && !t.Release? && !t.Follow? && !t.AskPay? && !t.AskSend? }

  lemma OutsideKeeps(s: State, t: Step)
    requires Inv(s) && Enabled(s, t) && Outside(t)
    ensures Inv(Next(s, t))
  {
    hide Reduce, PcInv;
    var s' := Next(s, t);
    forall n | 0 <= n < |s'.deposits| ensures DepositInv(s', s'.deposits[n]) { assert DepositInv(s, s.deposits[n]); }
    forall c <- s'.calls ensures s'.attempt.Paying? && PcInv(s', s'.calls[c]) { SamePc(s, s', s.calls[c]); }
  }

  lemma StepKeepsInv(s: State, t: Step)
    requires Inv(s) && Enabled(s, t)
    ensures Inv(Next(s, t))
  {
    if t.Advance? {
      var pc := s.calls[t.c];
      match pc {
        case Opening(_, _) =>
          if t.a.Opened? { OpenedKeeps(s, t.c, pc, t.a.order); } else {
            EndKeeps(s, t.c, if t.a.AttemptExists? then Followed(s, t.a.read) else FailNow(t.a.retryable, t.a.paused));
          }
        case ToSend(_, _, _) => SendKeeps(s, t.c, pc, t.a, t.io);
        case Sent(_, _, _) =>
          if t.a.RefusedAnswered? { RefusedKeeps(s, t.c, pc, t.a, t.io); } else { SentKeeps(s, t.c, pc, t.a, t.io); }
        case Claiming(_) => ClaimKeeps(s, t.c, pc, t.a.ok);
        case Rereading(_, _) => RereadKeeps(s, t.c, pc, t.a.OrderRead?);
      }
    } else {
      match t {
        case Release => AttemptOnlyKeeps(s, Reset);
        case Follow(read) => AttemptOnlyKeeps(s, Followed(s, read));
        case AskPay(c, choice) => BegunKeeps(s, c, Opening(choice, s.address));
        case AskSend(c, shown) => BegunKeeps(s, c, Rereading(shown, s.address));
        case _ => OutsideKeeps(s, t);
      }
    }
  }

  lemma {:induction false} PathKeepsInv(ss: seq<State>, ts: seq<Step>)
    requires Path(ss, ts) && Inv(ss[0])
    ensures Inv(ss[|ts|])
    decreases |ts|
  {
    if ts != [] {
      var n := |ts| - 1;
      PathKeepsInv(ss[..n + 1], ts[..n]);
      StepKeepsInv(ss[n], ts[n]);
    }
  }

  lemma ReachableInv(s: State)
    requires Reachable(s)
    ensures Inv(s)
  {
    var s0 :| Init(s0) && Leads(s0, s);
    var ss, ts :| Path(ss, ts) && ss[0] == s0 && ss[|ts|] == s;
    PathKeepsInv(ss, ts);
  }

  // ---------------------------------------------------------------- the theorems

  predicate Sends(s: State, t: Step) {
    t.Advance? && t.c in s.calls && s.calls[t.c].ToSend? && (t.a.SelfPaid? || t.a.Relayed?)
  }

  // Across kills and any number of "send again": when an order's deposit leaves her wallet, every earlier deposit
  // of that order either has no record covering it or has one more than 24 h old.
  lemma OneDepositWhileHeld(s: State, t: Step, i: nat)
    requires Reachable(s) && Enabled(s, t) && Sends(s, t)
    requires i < |s.deposits| && s.deposits[i].order == s.calls[t.c].order.id
    ensures Spent(s, s.deposits[i])
  {
    ReachableInv(s);
    assert PcInv(s, s.calls[t.c]);
  }

  // Every deposit that left is the chain and token she chose, for at most 2 % over the price she was shown, or the
  // order as she authorised it, address and amount included -- and from the wallet that opened the order.
  lemma EveryDepositIsRightful(s: State, i: nat)
    requires Reachable(s) && i < |s.deposits|
    ensures var d := s.deposits[i];
      d.wallet == d.opener &&
      match d.cause
      case Chosen(ch) =>
        d.terms.chain == ch.chain && d.terms.token == ch.token && d.terms.amount.Some? &&
        d.terms.amount.value.units.Some? && d.terms.amount.value.units.value * 100 <= ch.priced * 102
      case Authorised(shown) =>
        d.terms.chain == shown.chain && d.terms.token == shown.token &&
        d.terms.address.Some? && shown.address == Some(d.terms.address.value) &&
        d.terms.amount.Some? && shown.amount.Some? && shown.amount.value.text == d.terms.amount.value.text
  {
    ReachableInv(s);
    assert DepositInv(s, s.deposits[i]);
  }

  // The guard writes this order's record now: the store is readable and writable, and nothing is there, or another
  // order's record that goes. A record of this order's own that has run out is kept, with its time.
  predicate WritesNow(h: Stored, o: OrderId, io: Io) {
    io.writes && (h.NoHold? || (h.Hold? && h.intent != o && io.drops))
  }

  // The record the guard leaves covers a deposit for 24 h from now exactly when it is written now.
  lemma CoveredNow(s: State, o: OrderId, io: Io)
    requires Unheld(s, o)
    ensures var cover := CoverOf(TakeHold(s, o, io).hold, o);
            (cover.Some? && s.now <= cover.value + HOLD_MAX_MS <==> WritesNow(s.hold, o, io)) &&
            (WritesNow(s.hold, o, io) ==> cover == Some(s.now))
    ensures TakeHold(s, o, io).now == s.now
  {
  }

  // A self-paid deposit leaves protected -- for 24 h from now -- exactly when its record is written now.
  lemma SelfPaidIsCoveredUnless(s: State, t: Step)
    requires Reachable(s) && Enabled(s, t) && Sends(s, t) && t.a.SelfPaid?
    ensures var s', o := Next(s, t), s.calls[t.c].order.id;
            (!Spent(s', s'.deposits[|s.deposits|]) <==> WritesNow(s.hold, o, t.io)) &&
            (WritesNow(s.hold, o, t.io) ==> s'.deposits[|s.deposits|].cover == Some(s.now))
  {
    hide Reduce, TakeHold, WritesNow, Reachable;
    ReachableInv(s);
    var o := s.calls[t.c].order.id;
    assert Unheld(s, o) by { assert PcInv(s, s.calls[t.c]); }
    CoveredNow(s, o, t.io);
    TakeHoldIsHold(s, o, t.io);
  }

  // A relayed deposit is without a record until its relay is answered, and is protected from then on exactly when
  // its record is written then.
  lemma RelayedIsCoveredUnless(s: State, t: Step)
    requires Reachable(s) && Enabled(s, t) && t.Advance? && !t.a.RefusedAnswered?
    requires s.calls[t.c].Sent? && !s.calls[t.c].held
    ensures var s', pc := Next(s, t), s.calls[t.c];
            (!Spent(s', s'.deposits[pc.index]) <==> WritesNow(s.hold, pc.order.id, t.io)) &&
            (WritesNow(s.hold, pc.order.id, t.io) ==> s'.deposits[pc.index].cover == Some(s.now))
  {
    hide Reduce, TakeHold, WritesNow, Reachable;
    ReachableInv(s);
    var o, n := s.calls[t.c].order.id, s.calls[t.c].index;
    assert Unheld(s, o) && n < |s.deposits| by { assert PcInv(s, s.calls[t.c]); }
    CoveredNow(s, o, t.io);
    TakeHoldIsHold(s, o, t.io);
    assert Next(s, t).deposits == HoldAfter(s, o, n, t.io).deposits;
  }
}
