// When a naira order's deposit can leave her wallet again.
module PayNairaAgain {
  import opened Common
  import opened PayHold
  import opened PayTypes
  import opened PayAttempt
  import opened PayNaira
  import opened PayNairaSafety
  import opened PayNairaLimits

  // ---------------------------------------------------------------- sent again within 24 h

  predicate StillWaits(s: State, i: OrderId) { i in s.orders && s.orders[i].awaitingDeposit && !s.orders[i].claimed }

  // An order that can be sent again is: after a kill, from the wallet that opened it, as it is now.
  lemma SentAgainNow(b: State, i: OrderId) returns (s: State, t: Step)
    requires OrdersInv(b) && StillWaits(b, i) && !b.hold.Unreadable? && Unheld(b, i)
    ensures Leads(b, s) && Enabled(s, t) && Sends(s, t) && s.calls[t.c].order.id == i
    ensures s.now == b.now && s.deposits == b.deposits
  {
    hide Leads;
    LeadsToItself(b);
    var s1 := Sendable(b, i);
    var o := s1.orders[i];
    var s2 := Next(s1, AskSend(0, o));
    LeadsOn(b, s1, AskSend(0, o));
    assert s2.calls == map[0 := Rereading(o, o.wallet)];
    s := Next(s2, Advance(0, OrderRead, Fine));
    LeadsOn(b, s2, Advance(0, OrderRead, Fine));
    t := Advance(0, SelfPaid, Fine);
  }

  // Killed, the wallet switched, and the order given an address and an amount if it had none.
  lemma Sendable(b: State, i: OrderId) returns (s: State)
    requires OrdersInv(b) && StillWaits(b, i)
    ensures Leads(b, s) && s.attempt.Idle? && s.calls == map[]
    ensures s.now == b.now && s.deposits == b.deposits && s.hold == b.hold
    ensures StillWaits(s, i) && s.orders[i].id == i && s.address == s.orders[i].wallet
    ensures SameDeposit(s.orders[i].terms, s.orders[i].terms)
  {
    hide Leads;
    LeadsToItself(b);
    var s1 := Next(b, Kill);
    LeadsOn(b, b, Kill);
    s := Next(s1, SwitchWallet(b.orders[i].wallet));
    LeadsOn(b, s1, SwitchWallet(b.orders[i].wallet));
    if !SameDeposit(b.orders[i].terms, b.orders[i].terms) {
      LeadsOn(b, s, ServerAmends(Terms));
      s := Next(s, ServerAmends(Terms));
    }
  }

  // The order is not sent again: it no longer waits, or the store cannot be read and nothing is about to clear it.
  ghost predicate Blocked(s: State, i: OrderId) {
    && i in s.orders && (forall c <- s.calls :: s.calls[c].ToSend? ==> s.calls[c].order.id != i)
    && (!StillWaits(s, i) ||
        (s.hold.Unreadable? && forall c <- s.calls :: s.calls[c].Sent? && s.calls[c].held ==> s.calls[c].order.id != i))
  }

  // A step that makes no order wait anew, clears nothing the order waits under, and leaves its one call elsewhere.
  lemma BlockedBy(s: State, s': State, i: OrderId)
    requires Blocked(s, i) && i in s'.orders
    requires StillWaits(s', i) ==> StillWaits(s, i) && (s.hold.Unreadable? ==> s'.hold.Unreadable?)
    requires forall c <- s'.calls :: Elsewhere(s'.calls[c], i) || (c in s.calls && s'.calls[c] == s.calls[c])
    ensures Blocked(s', i)
  {
  }

  predicate Elsewhere(pc: Pc, i: OrderId) {
    match pc
    case ToSend(o, _, _) => o.id != i
    case Sent(o, _, held) => held ==> o.id != i
    case _ => true
  }

  lemma BlockedSend(s: State, c: CallId, a: Answer, io: Io, i: OrderId)
    requires Blocked(s, i) && c in s.calls && s.calls[c].ToSend? && CanAnswer(s, s.calls[c], a, io)
    ensures Blocked(OnSend(s, c, s.calls[c], a, io), i)
  {
    hide Reduce, Blocked, CanHold, TakeHold;
    var pc := s.calls[c];
    UnreadableKept(s, pc.order.id, io);
    TakeHoldIsHold(s, pc.order.id, io);
    assert pc.order.id != i && i in s.orders by { CallElsewhere(s, c, i); }
    BlockedBy(s, OnSend(s, c, pc, a, io), i);
  }

  lemma CallElsewhere(s: State, c: CallId, i: OrderId)
    requires Blocked(s, i) && c in s.calls
    ensures i in s.orders && (s.calls[c].ToSend? ==> s.calls[c].order.id != i)
    ensures StillWaits(s, i) && s.calls[c].Sent? && s.calls[c].held ==> s.calls[c].order.id != i
  {
  }

  // A refused send clears the record of the open order; an order that waits is the open one.
  lemma BlockedSent(s: State, c: CallId, a: Answer, io: Io, i: OrderId)
    requires Inv(s) && Blocked(s, i) && c in s.calls && s.calls[c].Sent? && CanAnswer(s, s.calls[c], a, io)
    ensures Blocked(OnSent(s, c, s.calls[c], a, io), i)
  {
    hide Reduce, Blocked, TakeHold, DepositInv, SpentBelow;
    var pc := s.calls[c];
    assert PcInv(s, pc) && OrdersInv(s);
    CallElsewhere(s, c, i);
    UnreadableKept(s, pc.order.id, io);
    TakeHoldIsHold(s, pc.order.id, io);
    BlockedBy(s, OnSent(s, c, pc, a, io), i);
  }

  lemma BlockedReread(s: State, c: CallId, read: bool, i: OrderId)
    requires OrdersInv(s) && Blocked(s, i) && c in s.calls && s.calls[c].Rereading?
    ensures Blocked(OnReread(s, c, s.calls[c], read), i)
  {
    hide Reduce, SameDeposit;
    BlockedBy(s, OnReread(s, c, s.calls[c], read), i);
  }

  lemma BlockedOther(s: State, c: CallId, a: Answer, io: Io, i: OrderId)
    requires Inv(s) && Blocked(s, i) && c in s.calls && CanAnswer(s, s.calls[c], a, io)
    requires s.calls[c].Opening? || s.calls[c].Claiming?
    ensures Blocked(Answered(s, c, s.calls[c], a, io), i)
  {
    hide Reduce, DepositInv, PcInv;
    BlockedBy(s, Answered(s, c, s.calls[c], a, io), i);
  }

  lemma BlockedAnswer(s: State, c: CallId, a: Answer, io: Io, i: OrderId)
    requires Inv(s) && Blocked(s, i) && Enabled(s, Advance(c, a, io))
    ensures Blocked(Next(s, Advance(c, a, io)), i)
  {
    hide Reduce, DepositInv, PcInv, Blocked, CanAnswer, OnSend, OnSent, OnReread, OnOpened, OnClaim;
    match s.calls[c] {
      case ToSend(_, _, _) => BlockedSend(s, c, a, io, i);
      case Sent(_, _, _) => BlockedSent(s, c, a, io, i);
      case Rereading(_, _) => BlockedReread(s, c, a.OrderRead?, i);
      case _ => BlockedOther(s, c, a, io, i);
    }
  }

  lemma BlockedStep(s: State, t: Step, i: OrderId)
    requires Inv(s) && Blocked(s, i) && Enabled(s, t)
    ensures Blocked(Next(s, t), i)
  {
    hide Reduce, DepositInv, PcInv, Answered;
    if t.Advance? { BlockedAnswer(s, t.c, t.a, t.io, i); }
  }

  lemma {:induction false} BlockedPath(ss: seq<State>, ts: seq<Step>, i: OrderId)
    requires Path(ss, ts) && Inv(ss[0]) && Blocked(ss[0], i)
    ensures Blocked(ss[|ts|], i) && Inv(ss[|ts|])
    decreases |ts|
  {
    hide Blocked;
    if ts != [] {
      var n := |ts| - 1;
      BlockedPath(ss[..n + 1], ts[..n], i);
      StepKeepsInv(ss[n], ts[n]);
      BlockedStep(ss[n], ts[n], i);
    }
  }

  lemma BlockedNeverSends(b: State, i: OrderId, s: State, t: Step)
    requires Inv(b) && Blocked(b, i) && Leads(b, s) && Sends(s, t)
    ensures s.calls[t.c].order.id != i
  {
    var ss, ts :| Path(ss, ts) && ss[0] == b && ss[|ts|] == s;
    BlockedPath(ss, ts, i);
  }

  // From state b on, deposit n's order leaves again within 24 h of `since`, with that deposit as it was.
  ghost predicate LeavesAgain(b: State, n: nat, since: nat, s: State, t: Step)
    requires n < |b.deposits|
  {
    && Leads(b, s) && Enabled(s, t) && Sends(s, t) && s.calls[t.c].order.id == b.deposits[n].order
    && n < |s.deposits| && s.deposits[n] == b.deposits[n] && s.now <= since + HOLD_MAX_MS
  }

  lemma BlockedNeverLeaves(b: State, n: nat, since: nat)
    requires Reachable(b) && n < |b.deposits| && Blocked(b, b.deposits[n].order)
    ensures !exists s: State, t: Step :: LeavesAgain(b, n, since, s, t)
  {
    hide Blocked, Sends;
    ReachableInv(b);
    forall s: State, t: Step ensures !LeavesAgain(b, n, since, s, t) {
      if LeavesAgain(b, n, since, s, t) { BlockedNeverSends(b, b.deposits[n].order, s, t); }
    }
  }

  lemma RecordedNeverLeaves(b: State, n: nat)
    requires Reachable(b) && n < |b.deposits| && b.deposits[n].cover == Some(b.now)
    ensures !exists s: State, t: Step :: LeavesAgain(b, n, b.now, s, t)
  {
    hide Leads, Init, Sends;
    forall s: State, t: Step ensures !LeavesAgain(b, n, b.now, s, t) {
      if LeavesAgain(b, n, b.now, s, t) {
        var s0 :| Init(s0) && Leads(s0, b);
        LeadsFar(s0, b, s);
        OneDepositWhileHeld(s, t, n);
      }
    }
  }

  lemma FreeLeaves(b: State, n: nat)
    requires Reachable(b) && n < |b.deposits|
    requires var i := b.deposits[n].order; StillWaits(b, i) && !b.hold.Unreadable? && Unheld(b, i)
    ensures exists s: State, t: Step :: LeavesAgain(b, n, b.now, s, t)
  {
    hide Leads;
    ReachableInv(b);
    var s, t := SentAgainNow(b, b.deposits[n].order);
    assert LeavesAgain(b, n, b.now, s, t);
  }

  // After a self-paid deposit its order's deposit can leave again within 24 h exactly when the order still waits and
  // the deposit left without its record being written.
  lemma SelfPaidLeavesAgainExactlyWhen(s: State, t: Step)
    requires Reachable(s) && Enabled(s, t) && Sends(s, t) && t.a.SelfPaid?
    ensures var b, n, i := Next(s, t), |s.deposits|, s.calls[t.c].order.id;
            n < |b.deposits| &&
            ((exists s': State, t': Step :: LeavesAgain(b, n, s.now, s', t')) <==>
               StillWaits(s, i) && !WritesNow(s.hold, i, t.io))
  {
    hide Reduce, Reachable, TakeHold, WritesNow, StillWaits;
    var b, n, i := Next(s, t), |s.deposits|, s.calls[t.c].order.id;
    ReachableInv(s);
    StepReachable(s, t);
    assert PcInv(s, s.calls[t.c]);
    SelfPaidIsCoveredUnless(s, t);
    TakeHoldIsHold(s, i, t.io);
    if !StillWaits(s, i) {
      assert Blocked(b, i) by { SameOrders(s, b, i); }
      BlockedNeverLeaves(b, n, s.now);
    } else if WritesNow(s.hold, i, t.io) {
      RecordedNeverLeaves(b, n);
    } else {
      KeptRecord(s, i, t.io);
      SameOrders(s, b, i);
      FreeLeaves(b, n);
    }
  }

  lemma SameOrders(s: State, s': State, i: OrderId)
    requires s'.orders == s.orders
    ensures StillWaits(s', i) == StillWaits(s, i)
  {
  }

  // A record the guard does not write now leaves the store readable, with nothing active of the order's own.
  lemma KeptRecord(s: State, o: OrderId, io: Io)
    requires Unheld(s, o) && !s.hold.Unreadable? && !WritesNow(s.hold, o, io)
    ensures var s' := TakeHold(s, o, io); !s'.hold.Unreadable? && Unheld(s', o)
  {
  }

  lemma StepReachable(s: State, t: Step)
    requires Reachable(s) && Enabled(s, t)
    ensures Reachable(Next(s, t))
  {
    hide Leads, Next, Enabled, Init;
    var s0 :| Init(s0) && Leads(s0, s);
    LeadsOn(s0, s, t);
  }

  // After a relay is answered, exactly when the order still waits, the store can be read, and the record was not
  // written then.
  lemma RelayedLeavesAgainExactlyWhen(s: State, t: Step)
    requires Reachable(s) && Enabled(s, t) && t.Advance? && !t.a.RefusedAnswered?
    requires s.calls[t.c].Sent? && !s.calls[t.c].held
    ensures var b, n, i := Next(s, t), s.calls[t.c].index, s.calls[t.c].order.id;
            n < |b.deposits| &&
            ((exists s': State, t': Step :: LeavesAgain(b, n, s.now, s', t')) <==>
               StillWaits(s, i) && !s.hold.Unreadable? && !WritesNow(s.hold, i, t.io))
  {
    hide Reduce, Reachable, TakeHold, WritesNow, StillWaits;
    var b, n, i := Next(s, t), s.calls[t.c].index, s.calls[t.c].order.id;
    ReachableInv(s);
    StepReachable(s, t);
    assert PcInv(s, s.calls[t.c]);
    RelayedIsCoveredUnless(s, t);
    TakeHoldIsHold(s, i, t.io);
    assert b.orders == s.orders && b.now == s.now && b.hold == TakeHold(s, i, t.io).hold && b.deposits[n].order == i;
    SameOrders(s, b, i);
    if !StillWaits(s, i) || s.hold.Unreadable? {
      UnreadableKept(s, i, t.io);
      BlockedNeverLeaves(b, n, s.now);
    } else if WritesNow(s.hold, i, t.io) {
      RecordedNeverLeaves(b, n);
    } else {
      KeptRecord(s, i, t.io);
      FreeLeaves(b, n);
    }
  }

  lemma UnreadableKept(s: State, o: OrderId, io: Io)
    ensures s.hold.Unreadable? ==> TakeHold(s, o, io) == s
  {
  }

  // Between a relay and its answer, exactly when the order still waits and the store can be read: no record is
  // written yet.
  lemma UnansweredRelayLeavesAgainExactlyWhen(s: State, t: Step)
    requires Reachable(s) && Enabled(s, t) && Sends(s, t) && t.a.Relayed?
    ensures var b, n, i := Next(s, t), |s.deposits|, s.calls[t.c].order.id;
            n < |b.deposits| &&
            ((exists s': State, t': Step :: LeavesAgain(b, n, s.now, s', t')) <==>
               StillWaits(s, i) && !s.hold.Unreadable?)
  {
    hide Reduce, Reachable, StillWaits;
    var b, n, i := Next(s, t), |s.deposits|, s.calls[t.c].order.id;
    ReachableInv(s);
    StepReachable(s, t);
    assert PcInv(s, s.calls[t.c]);
    SameOrders(s, b, i);
    if StillWaits(s, i) && !s.hold.Unreadable? { FreeLeaves(b, n); } else { BlockedNeverLeaves(b, n, s.now); }
  }
}
