// Where the naira deposit's safeguards end, and what closes the gap: orders that close within 24 h.
module PayNairaLimits {
  import opened Common
  import opened PayHold
  import opened PayTypes
  import opened PayAttempt
  import opened PayNaira
  import opened PayNairaSafety

  // ---------------------------------------------------------------- orders that close in time

  // An order that waits for its deposit was opened at most 24 h ago.
  ghost predicate Prompt(s: State) {
    forall i <- s.orders :: s.orders[i].awaitingDeposit ==> i in s.openedAt && s.now <= s.openedAt[i] + HOLD_MAX_MS
  }

  // No deposit of the order below position n left with a record.
  ghost predicate NoneCovered(s: State, o: OrderId, n: nat) {
    forall i :: 0 <= i < n <= |s.deposits| && s.deposits[i].order == o ==> s.deposits[i].cover.None?
  }

  ghost predicate PromptPc(s: State, pc: Pc) {
    match pc
    case ToSend(o, _, _) => NoneCovered(s, o.id, |s.deposits|)
    case Sent(o, i, _) => NoneCovered(s, o.id, i)
    case _ => true
  }

  // Records and deposits are no older than their order, and only an order's last deposit has a record.
  ghost predicate DatedDeposits(s: State) {
    && s.openedAt.Keys == s.orders.Keys && (forall i <- s.openedAt :: s.openedAt[i] <= s.now)
    && (s.hold.Hold? && s.hold.intent in s.openedAt ==> s.openedAt[s.hold.intent] <= s.hold.at)
    && (forall n :: 0 <= n < |s.deposits| ==> DatedDeposit(s, s.deposits[n]))
    && (forall m, n :: 0 <= m < n < |s.deposits| && s.deposits[m].order == s.deposits[n].order ==>
        s.deposits[m].cover.None?)
  }

  predicate DatedDeposit(s: State, d: Moved) {
    d.order in s.openedAt && (d.cover.Some? ==> s.openedAt[d.order] <= d.cover.value)
  }

  ghost predicate PromptInv(s: State) { DatedDeposits(s) && forall c <- s.calls :: PromptPc(s, s.calls[c]) }

  lemma DatedTakeHold(s: State, o: OrderId, io: Io)
    requires DatedDeposits(s) && o in s.openedAt
    ensures DatedDeposits(TakeHold(s, o, io))
  {
    var s' := TakeHold(s, o, io);
    forall n | 0 <= n < |s'.deposits| ensures DatedDeposit(s', s'.deposits[n]) {
      assert DatedDeposit(s, s.deposits[n]);
    }
  }

  // The last deposit of all becomes d, or d comes after it: the earlier ones of its order have no record.
  lemma DatedLast(s: State, n: nat, d: Moved)
    requires DatedDeposits(s) && n <= |s.deposits| <= n + 1 && DatedDeposit(s, d) && NoneCovered(s, d.order, n)
    ensures DatedDeposits(s.(deposits := s.deposits[..n] + [d]))
  {
    var s' := s.(deposits := s.deposits[..n] + [d]);
    forall m | 0 <= m < |s'.deposits| ensures DatedDeposit(s', s'.deposits[m]) {
      if m < n { assert DatedDeposit(s, s.deposits[m]); }
    }
  }

  lemma DatedBut(s: State, n: nat)
    requires DatedDeposits(s) && n + 1 == |s.deposits|
    ensures DatedDeposits(s.(deposits := s.deposits[..n] + s.deposits[n + 1..]))
  {
    var s' := s.(deposits := s.deposits[..n] + s.deposits[n + 1..]);
    forall m | 0 <= m < |s'.deposits| ensures DatedDeposit(s', s'.deposits[m]) {
      assert DatedDeposit(s, s.deposits[m]);
    }
  }

  // Only the attempt and the calls differ.
  lemma DatedElse(s: State, s': State)
    requires DatedDeposits(s) && s' == s.(attempt := s'.attempt, calls := s'.calls)
    ensures DatedDeposits(s')
  {
    forall n | 0 <= n < |s'.deposits| ensures DatedDeposit(s', s'.deposits[n]) {
      assert DatedDeposit(s, s.deposits[n]);
    }
  }

  // A record taken now for an order dates from after its opening.
  lemma DatedCover(s: State, o: OrderId, io: Io)
    requires DatedDeposits(s) && o in s.openedAt
    ensures var h := TakeHold(s, o, io).hold; CoverOf(h, o).Some? ==> s.openedAt[o] <= CoverOf(h, o).value
    ensures TakeHold(s, o, io) == s.(hold := TakeHold(s, o, io).hold)
  {
  }

  lemma PromptSend(s: State, c: CallId, pc: Pc, a: Answer, io: Io)
    requires DatedDeposits(s) && pc.ToSend? && PromptPc(s, pc) && CanAnswer(s, pc, a, io) && pc.order.id in s.openedAt
    requires forall d <- s.calls :: d == c
    ensures PromptInv(OnSend(s, c, pc, a, io))
  {
    hide Reduce, DatedDeposits, TakeHold;
    var s', o, n := OnSend(s, c, pc, a, io), pc.order, |s.deposits|;
    DatedCover(s, o.id, io);
    var s1 := if a.SelfPaid? then TakeHold(s, o.id, io) else s;
    DatedTakeHold(s, o.id, io);
    if a.SelfPaid? || a.Relayed? {
      assert s1.deposits[..n] + [s'.deposits[n]] == s'.deposits;
      DatedLast(s1, n, s'.deposits[n]);
      DatedElse(s1.(deposits := s'.deposits), s');
    } else {
      DatedElse(s, s');
    }
  }

  lemma PromptSent(s: State, c: CallId, pc: Pc, a: Answer, io: Io)
    requires DatedDeposits(s) && pc.Sent? && PromptPc(s, pc) && CanAnswer(s, pc, a, io) && pc.order.id in s.openedAt
    requires (forall d <- s.calls :: d == c) && pc.index + 1 == |s.deposits| &&
        s.deposits[pc.index].order == pc.order.id
    ensures PromptInv(OnSent(s, c, pc, a, io))
  {
    hide Reduce, DatedDeposits, TakeHold;
    var s', o, n := OnSent(s, c, pc, a, io), pc.order, pc.index;
    DatedCover(s, o.id, io);
    DatedTakeHold(s, o.id, io);
    if a.RefusedAnswered? {
      DatedBut(s, n);
      DatedDrop(s.(deposits := s'.deposits), io);
      DatedElse(s.(deposits := s'.deposits, hold := s'.hold), s');
    } else if pc.held {
      DatedElse(s, s');
    } else {
      var s1 := TakeHold(s, o.id, io);
      assert s1.deposits[..n] + [s'.deposits[n]] == s'.deposits;
      DatedLast(s1, n, s'.deposits[n]);
      DatedElse(s1.(deposits := s'.deposits), s');
    }
  }

  lemma DatedDrop(s: State, io: Io)
    requires DatedDeposits(s)
    ensures DatedDeposits(ClearHold(s, io))
  {
    var s' := ClearHold(s, io);
    forall n | 0 <= n < |s'.deposits| ensures DatedDeposit(s', s'.deposits[n]) {
      assert DatedDeposit(s, s.deposits[n]);
    }
  }

  lemma PromptReread(s: State, c: CallId, pc: Pc, read: bool)
    requires Inv(s) && PromptInv(s) && Prompt(s) && c in s.calls && s.calls[c] == pc && pc.Rereading?
    ensures PromptInv(OnReread(s, c, pc, read))
  {
    hide Reduce;
    var s', i := OnReread(s, c, pc, read), pc.shown.id;
    if read && i in s.orders && StillToSend(s, s.orders[i]) {
      forall n | 0 <= n < |s.deposits| && s.deposits[n].order == i ensures s.deposits[n].cover.None? {
        assert DepositInv(s, s.deposits[n]) && DatedDeposit(s, s.deposits[n]);
      }
    }
    assert forall n :: 0 <= n < |s.deposits| ==> DatedDeposit(s, s.deposits[n]) ==> DatedDeposit(s', s.deposits[n]);
  }

  lemma PromptOpened(s: State, c: CallId, pc: Pc, o: PaycrestOrder)
    requires Inv(s) && PromptInv(s) && c in s.calls && s.calls[c] == pc && pc.Opening? && CanOpen(s, pc, o)
    ensures PromptInv(OnOpened(s, c, pc, o))
  {
    hide Reduce;
    var s' := OnOpened(s, c, pc, o);
    forall n | 0 <= n < |s'.deposits| ensures DatedDeposit(s', s'.deposits[n]) && s.deposits[n].order != o.id {
      assert DatedDeposit(s, s.deposits[n]);
    }
  }

  // A step that touches neither deposits nor what the calls are to send.
  lemma PromptOther(s: State, s': State)
    requires PromptInv(s) && s'.deposits == s.deposits && s'.openedAt == s.openedAt && s'.orders.Keys == s.orders.Keys
    requires s'.now >= s.now && (s'.hold == s.hold || !s'.hold.Hold?)
    requires forall c <- s'.calls | s'.calls[c].ToSend? || s'.calls[c].Sent? ::
               c in s.calls && s'.calls[c] == s.calls[c]
    ensures PromptInv(s')
  {
    forall n | 0 <= n < |s'.deposits| ensures DatedDeposit(s', s'.deposits[n]) {
      assert DatedDeposit(s, s.deposits[n]);
    }
    forall c <- s'.calls ensures PromptPc(s', s'.calls[c]) {
      if c in s.calls && s'.calls[c] == s.calls[c] { assert PromptPc(s, s.calls[c]); }
    }
  }

  lemma PromptAnswer(s: State, c: CallId, a: Answer, io: Io)
    requires Inv(s) && PromptInv(s) && Prompt(s) && Enabled(s, Advance(c, a, io))
    ensures PromptInv(Next(s, Advance(c, a, io)))
  {
    hide Reduce, DepositInv, DatedDeposit, Prompt;
    var pc, s' := s.calls[c], Next(s, Advance(c, a, io));
    assert PcInv(s, pc) && PromptPc(s, pc);
    match pc {
      case Opening(_, _) => if a.Opened? { PromptOpened(s, c, pc, a.order); } else { PromptOther(s, s'); }
      case ToSend(_, _, _) => PromptSend(s, c, pc, a, io);
      case Sent(_, _, _) => PromptSent(s, c, pc, a, io);
      case Claiming(_) => PromptOther(s, s');
      case Rereading(_, _) => PromptReread(s, c, pc, a.OrderRead?);
    }
  }

  lemma PromptStep(s: State, t: Step)
    requires Inv(s) && PromptInv(s) && Prompt(s) && Enabled(s, t)
    ensures PromptInv(Next(s, t))
  {
    hide Reduce, Inv, PromptInv, Prompt, Answered;
    if t.Advance? { PromptAnswer(s, t.c, t.a, t.io); } else { PromptOther(s, Next(s, t)); }
  }

  // When every order closes within 24 h of its opening, at most one deposit of an order ever leaves with a record:
  // of two of them the earlier one left without. `PayNairaSafety` says exactly when a deposit does.
  lemma {:induction false} AtMostOneRecordedDeposit(ss: seq<State>, ts: seq<Step>)
    requires Path(ss, ts) && Init(ss[0]) && forall n :: 0 <= n < |ts| ==> Prompt(ss[n])
    ensures Inv(ss[|ts|]) && PromptInv(ss[|ts|])
    ensures var ds := ss[|ts|].deposits;
            forall m, n :: 0 <= m < n < |ds| && ds[m].order == ds[n].order ==> ds[m].cover.None?
    decreases |ts|
  {
    hide Prompt;
    if ts != [] {
      var n := |ts| - 1;
      AtMostOneRecordedDeposit(ss[..n + 1], ts[..n]);
      StepKeepsInv(ss[n], ts[n]);
      PromptStep(ss[n], ts[n]);
    }
  }

  // ---------------------------------------------------------------- concrete runs

  lemma LeadsOn(a: State, s: State, t: Step)
    requires Leads(a, s) && Enabled(s, t)
    ensures Leads(a, Next(s, t))
  {
    hide Next, Enabled;
    var ss, ts :| Path(ss, ts) && ss[0] == a && ss[|ts|] == s;
    var ss', ts' := ss + [Next(s, t)], ts + [t];
    assert Path(ss', ts') && ss'[0] == a && ss'[|ts'|] == Next(s, t);
  }

  lemma LeadsToItself(s: State)
    ensures Leads(s, s)
  {
    var ts: seq<Step> := [];
    assert Path([s], ts) && [s][0] == s && [s][|ts|] == s;
  }

  lemma LeadsFar(a: State, b: State, c: State)
    requires Leads(a, b) && Leads(b, c)
    ensures Leads(a, c)
  {
    hide Next, Enabled;
    var ss, ts :| Path(ss, ts) && ss[0] == a && ss[|ts|] == b;
    var rs, us :| Path(rs, us) && rs[0] == b && rs[|us|] == c;
    var all, steps := ss + rs[1..], ts + us;
    forall n | 0 <= n < |steps| ensures Enabled(all[n], steps[n]) && all[n + 1] == Next(all[n], steps[n]) {
      if n >= |ts| { assert all[n] == rs[n - |ts|] && all[n + 1] == rs[n - |ts| + 1]; }
    }
    assert Path(all, steps) && all[0] == a && all[|steps|] == c;
  }

  const Fine: Io := Io(true, true)
  const Terms: DepositTerms := DepositTerms("base", "USDC", Some("0xd"), Some(Figure("1.00", Some(100))))
  const Asked: PaycrestOrder := PaycrestOrder(5, true, false, 9, Terms)

  function Start(): State { State(0, NoHold, map[], map[], None, false, 9, Idle, map[], []) }

  lemma OpenedAndToSend() returns (s: State)
    ensures Leads(Start(), s) && s.now == 0 && s.hold.NoHold? && s.orders == map[5 := Asked] && s.address == 9
    ensures s.deposits == [] && s.calls == map[0 := ToSend(Asked, 9, Chosen(Choice("base", "USDC", 100)))]
  {
    hide Leads;
    var s0 := Start();
    LeadsToItself(s0);
    var pay := AskPay(0, Choice("base", "USDC", 100));
    var s1 := Next(s0, pay);
    LeadsOn(Start(), s0, pay);
    assert s1.calls == map[0 := Opening(Choice("base", "USDC", 100), 9)];
    s := Next(s1, Advance(0, Opened(Asked), Fine));
    LeadsOn(Start(), s1, Advance(0, Opened(Asked), Fine));
  }

  lemma RelayedAndKilled() returns (s: State)
    ensures Leads(Start(), s) && s.now == 0 && s.hold.NoHold? && s.orders == map[5 := Asked]
    ensures s.attempt.Idle? && s.calls == map[] && s.address == 9
    ensures s.deposits == [Moved(5, Terms, 9, 9, Chosen(Choice("base", "USDC", 100)), true, None)]
  {
    hide Leads;
    var s2 := OpenedAndToSend();
    var s3 := Next(s2, Advance(0, Relayed, Fine));
    LeadsOn(Start(), s2, Advance(0, Relayed, Fine));
    s := Next(s3, Kill);
    LeadsOn(Start(), s3, Kill);
  }

  // A relayed deposit is recorded only after the relay answers. A kill in between leaves no record: the order still
  // reads as waiting, she authorises it again, and the second deposit -- self-paid this time -- leaves at once.
  lemma RelayThenKillSendsTwice()
    ensures exists s :: Reachable(s) && |s.deposits| == 2 && s.now == 0 &&
                        s.deposits[0].order == s.deposits[1].order && s.deposits[0].terms == s.deposits[1].terms
  {
    hide Leads;
    var s0 := RelayedAndKilled();
    var s2 := RereadAgain(s0, 1);
    var s3 := Next(s2, Advance(1, SelfPaid, Fine));
    LeadsOn(Start(), s2, Advance(1, SelfPaid, Fine));
    assert s3.deposits[0] == s2.deposits[0];
  }

  // An order that still waits after 24 h is paid twice in one instant: its own record has run out, is kept with its
  // time, and so protects neither the second send nor, after a kill, the third.
  lemma SpentRecordSendsAgain()
    ensures exists s, t: Step ::
              Reachable(s) && Enabled(s, t) && Sends(s, t) && t.a.SelfPaid? && s.calls[t.c].order.id == 5 &&
              |s.deposits| == 2 && s.deposits[1].order == 5 && !s.deposits[1].relayed &&
              s.deposits[1].cover == Some(0) && s.now == HOLD_MAX_MS + 1
  {
    hide Leads;
    var s0 := SentAndRunOut();
    var s1 := RereadAgain(s0, 1);
    var s2 := Next(s1, Advance(1, SelfPaid, Fine));
    LeadsOn(Start(), s1, Advance(1, SelfPaid, Fine));
    assert s2.orders == s0.orders && s2.hold == s0.hold && s2.address == s0.address;
    var s3 := Next(s2, Kill);
    LeadsOn(Start(), s2, Kill);
    var s4 := RereadAgain(s3, 2);
    assert Sends(s4, Advance(2, SelfPaid, Fine)) && Enabled(s4, Advance(2, SelfPaid, Fine));
  }

  // Self-paid at 0; the claim is lost, the order still waits, and its record runs out.
  lemma SentAndRunOut() returns (s: State)
    ensures Leads(Start(), s) && s.now == HOLD_MAX_MS + 1 && s.hold == Hold(5, 0) && s.orders == map[5 := Asked]
    ensures s.attempt.Idle? && s.calls == map[] && s.address == 9
    ensures |s.deposits| == 1
  {
    hide Leads;
    var s0 := OpenedAndToSend();
    var s1 := Next(s0, Advance(0, SelfPaid, Fine));
    LeadsOn(Start(), s0, Advance(0, SelfPaid, Fine));
    var s2 := Next(s1, Kill);
    LeadsOn(Start(), s1, Kill);
    s := Next(s2, Tick(HOLD_MAX_MS + 1));
    LeadsOn(Start(), s2, Tick(HOLD_MAX_MS + 1));
  }

  // "Send again" of the order as it is, up to the send.
  lemma RereadAgain(s: State, c: CallId) returns (s': State)
    requires Leads(Start(), s) && s.attempt.Idle? && s.calls == map[] && s.address == 9 && s.orders == map[5 := Asked]
    requires !MayBeOut(s, 5)
    ensures Leads(Start(), s') && s'.calls == map[c := ToSend(Asked, 9, Authorised(Terms))]
    ensures s' == s.(calls := s'.calls, attempt := s'.attempt)
  {
    hide Leads;
    var s1 := Next(s, AskSend(c, Asked));
    LeadsOn(Start(), s, AskSend(c, Asked));
    assert s1.calls == map[c := Rereading(Asked, 9)];
    s' := Next(s1, Advance(c, OrderRead, Fine));
    LeadsOn(Start(), s1, Advance(c, OrderRead, Fine));
  }
}
