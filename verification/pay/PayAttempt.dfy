// The state machine of one live TSA Pay attempt (tsa-app/hooks/payAttempt.ts).
module PayAttempt {
  import opened Common
  import opened PayTypes

  datatype SellStage =
    StageIdle | Swapping | StageWaiting | Ordering | Sending | StageShortfall | StageDone | StageFailed

  datatype Attempt =
    | Idle
    | Paying(walletTried: bool, stage: Option<SellStage>, order: Option<PaycrestOrder>, swapped: bool)
    | Continue(intent: SellIntent, swapped: bool)
    | Deposit(heldOrder: PaycrestOrder, sendError: Option<string>)
    | Shortfall(saleIntent: Option<SellIntent>, missingUsdc: Option<string>, walletTried: bool, swapped: bool)
    | Waiting(stage: Option<SellStage>, order: Option<PaycrestOrder>, note: Option<string>, swapped: bool)
    | Failed(error: string, code: Option<string>, retryable: bool, paused: bool, held: bool, noContinue: bool,
             failedIntent: Option<SellIntent>, order: Option<PaycrestOrder>, swapped: bool)

  datatype Event =
    | Begin
    | Progress(swapStage: SellStage, order: Option<PaycrestOrder>)
    | Handed(waitStage: Option<SellStage>, order: Option<PaycrestOrder>, note: Option<string>)
    | Stop(message: string, retryable: bool, intent: Option<SellIntent>, order: Option<PaycrestOrder>)
    | Short(missingUsdc: Option<string>, intent: Option<SellIntent>)
    | WalletOffered
    | NeedsHer(open: SellIntent)
    | AwaitDeposit(depositOrder: PaycrestOrder, sendError: Option<string>)
    | Fail(error: string, code: Option<string>, retryable: bool, paused: bool, held: bool, noContinue: Option<bool>,
           intent: Option<SellIntent>, order: Option<PaycrestOrder>)
    | Reset

  // Stages only the swapped pipeline reports.
  predicate SwapStage(s: SellStage) {
    s in {Swapping, StageWaiting, Ordering, StageShortfall, StageDone}
  }

  predicate WasSwapped(a: Attempt) { !a.Idle? && !a.Deposit? && a.swapped }

  predicate WalletTried(a: Attempt) { (a.Paying? || a.Shortfall?) && a.walletTried }

  predicate IsPaused(a: Attempt) { a.Failed? && a.paused }

  predicate IsHeld(a: Attempt) { a.Failed? && a.held }

  predicate CanReset(a: Attempt) { !a.Paying? && !IsPaused(a) }

  function Reduce(a: Attempt, e: Event): Attempt {
    if IsPaused(a) then a
    else if IsHeld(a) && (e.Fail? || e.Stop?) && e.retryable then a
    else
      match e
      case Begin => if a.Paying? then a else Paying(false, None, None, false)
      case Progress(s, o) => Paying(WalletTried(a), Some(s), o, WasSwapped(a) || SwapStage(s))
      case Handed(s, o, note) => Waiting(s, o, note, WasSwapped(a) || (s.Some? && SwapStage(s.value)))
      case Stop(m, r, i, o) => Failed(m, None, r, false, false, i.None?, i, o, WasSwapped(a))
      case Short(m, i) => Shortfall(i, m, WalletTried(a), true)
      case WalletOffered => Paying(true, Some(Ordering), None, true)
      case NeedsHer(i) => Continue(i, true)
      case AwaitDeposit(o, err) => Deposit(o, err)
      case Fail(m, c, r, p, h, n, i, o) =>
        Failed(m, c, r, p, h, if n.Some? then n.value else i.None?, i, o, WasSwapped(a))
      case Reset => if CanReset(a) then Idle else a
  }

  function Run(a: Attempt, es: seq<Event>): Attempt {
    if es == [] then a else Reduce(Run(a, es[..|es| - 1]), es[|es| - 1])
  }

  // ---------------------------------------------------------------- history

  // The machine did not turn the event away.
  predicate Accepted(a: Attempt, e: Event) {
    && !IsPaused(a)
    && !(IsHeld(a) && (e.Fail? || e.Stop?) && e.retryable)
    && (e.Begin? ==> !a.Paying?)
    && (e.Reset? ==> CanReset(a))
  }

  predicate SwapEvidence(e: Event) {
    || (e.Progress? && e.swapStage !in {StageIdle, Sending, StageFailed})
    || (e.Handed? && e.waitStage.Some? && e.waitStage.value !in {StageIdle, Sending, StageFailed})
    || e.Short? || e.WalletOffered? || e.NeedsHer?
  }

  predicate Forgets(e: Event) { e.Begin? || e.AwaitDeposit? || e.Reset? }

  ghost predicate AcceptedAt(es: seq<Event>, i: nat)
    requires i < |es|
  {
    Accepted(Run(Idle, es[..i]), es[i])
  }

  // Some marked position below n is followed by no wiping one.
  ghost predicate MarkedSinceWipe(n: nat, mark: nat -> bool, wipe: nat -> bool) {
    exists i: nat :: i < n && mark(i) && forall j: nat :: i < j < n ==> !wipe(j)
  }

  lemma MarkedStep(n: nat, mark: nat -> bool, wipe: nat -> bool)
    ensures MarkedSinceWipe(n + 1, mark, wipe) <==> mark(n) || (!wipe(n) && MarkedSinceWipe(n, mark, wipe))
  {
  }

  lemma MarkedAgree(n: nat, mark: nat -> bool, wipe: nat -> bool, mark': nat -> bool, wipe': nat -> bool)
    requires forall i: nat :: i < n ==> mark(i) == mark'(i) && wipe(i) == wipe'(i)
    ensures MarkedSinceWipe(n, mark, wipe) == MarkedSinceWipe(n, mark', wipe')
  {
  }

  ghost function AcceptedWhere(es: seq<Event>, p: Event -> bool): nat -> bool {
    (i: nat) => i < |es| && p(es[i]) && AcceptedAt(es, i)
  }

  // Read off the history alone: accepted evidence of a swap that no accepted begin, deposit or reset follows.
  ghost predicate SwappedInHistory(es: seq<Event>) {
    MarkedSinceWipe(|es|, AcceptedWhere(es, SwapEvidence), AcceptedWhere(es, Forgets))
  }

  predicate Offered(e: Event) { e.WalletOffered? }

  predicate MovesOn(e: Event) { !(e.Progress? || e.Short? || e.WalletOffered?) }

  // Her wallet's USDC was offered, and since then only stages, shortfalls and offers were accepted.
  ghost predicate WalletTriedInHistory(es: seq<Event>) {
    MarkedSinceWipe(|es|, AcceptedWhere(es, Offered), AcceptedWhere(es, MovesOn))
  }

  lemma IgnoredIsNoOp(a: Attempt, e: Event)
    requires !Accepted(a, e)
    ensures Reduce(a, e) == a
  {
  }

  lemma OtherStages(s: SellStage)
    ensures SwapStage(s) <==> s !in {StageIdle, Sending, StageFailed}
  {
    match s
    case StageIdle =>
    case Sending =>
    case StageFailed =>
    case _ =>
  }

  lemma SwappedStep(a: Attempt, e: Event)
    ensures WasSwapped(Reduce(a, e)) <==>
              (Accepted(a, e) && SwapEvidence(e)) || (!(Accepted(a, e) && Forgets(e)) && WasSwapped(a))
  {
    if e.Progress? { OtherStages(e.swapStage); }
    if e.Handed? && e.waitStage.Some? { OtherStages(e.waitStage.value); }
  }

  lemma WalletStep(a: Attempt, e: Event)
    ensures WalletTried(Reduce(a, e)) <==>
              (Accepted(a, e) && Offered(e)) || (!(Accepted(a, e) && MovesOn(e)) && WalletTried(a))
  {
  }

  // Dropping the last event changes nothing said about the ones before it.
  lemma HistoryStep(es: seq<Event>, mark: Event -> bool, wipe: Event -> bool)
    requires es != []
    ensures var n := |es| - 1;
            MarkedSinceWipe(|es|, AcceptedWhere(es, mark), AcceptedWhere(es, wipe)) <==>
              (mark(es[n]) && AcceptedAt(es, n)) ||
              (!(wipe(es[n]) && AcceptedAt(es, n)) &&
               MarkedSinceWipe(n, AcceptedWhere(es[..n], mark), AcceptedWhere(es[..n], wipe)))
  {
    var n := |es| - 1;
    forall i: nat | i < n ensures es[..n][..i] == es[..i] {}
    MarkedStep(n, AcceptedWhere(es, mark), AcceptedWhere(es, wipe));
    MarkedAgree(n, AcceptedWhere(es, mark), AcceptedWhere(es, wipe),
                AcceptedWhere(es[..n], mark), AcceptedWhere(es[..n], wipe));
  }

  lemma {:induction false} SwappedRefinesHistory(es: seq<Event>)
    ensures WasSwapped(Run(Idle, es)) <==> SwappedInHistory(es)
  {
    if es != [] {
      var n := |es| - 1;
      SwappedRefinesHistory(es[..n]);
      SwappedStep(Run(Idle, es[..n]), es[n]);
      HistoryStep(es, SwapEvidence, Forgets);
    }
  }

  lemma {:induction false} WalletTriedRefinesHistory(es: seq<Event>)
    ensures WalletTried(Run(Idle, es)) <==> WalletTriedInHistory(es)
  {
    if es != [] {
      var n := |es| - 1;
      WalletTriedRefinesHistory(es[..n]);
      WalletStep(Run(Idle, es[..n]), es[n]);
      HistoryStep(es, Offered, MovesOn);
    }
  }

  // ---------------------------------------------------------------- guards over whole runs

  lemma {:induction false} PausedIsFinal(a: Attempt, es: seq<Event>)
    requires IsPaused(a)
    ensures Run(a, es) == a
  {
    if es != [] { PausedIsFinal(a, es[..|es| - 1]); }
  }

  predicate Outcome(e: Event) {
    e.Handed? || e.Stop? || e.Short? || e.NeedsHer? || e.AwaitDeposit? || e.Fail?
  }

  // An attempt in flight ends in a run exactly when an outcome is dispatched: begin, reset, progress and
  // an offered wallet leave it in flight, and the first outcome of any kind ends it.
  lemma InFlightUntilOutcome(a: Attempt, es: seq<Event>)
    requires a.Paying?
    ensures (forall k :: 0 <= k <= |es| ==> Run(a, es[..k]).Paying?) <==>
        (forall k :: 0 <= k < |es| ==> !Outcome(es[k]))
  {
    hide Reduce;
    if k :| 0 <= k < |es| && Outcome(es[k]) {
      assert es[..k + 1][..k] == es[..k];
      if Run(a, es[..k]).Paying? { FlightStep(Run(a, es[..k]), es[k]); }
    } else {
      forall k | 0 <= k <= |es| ensures Run(a, es[..k]).Paying? { FlightKept(a, es[..k]); }
    }
  }

  lemma FlightStep(a: Attempt, e: Event)
    requires a.Paying?
    ensures Reduce(a, e).Paying? <==> !Outcome(e)
  {
  }

  lemma {:induction false} FlightKept(a: Attempt, es: seq<Event>)
    requires a.Paying? && forall k :: 0 <= k < |es| ==> !Outcome(es[k])
    ensures Run(a, es).Paying?
  {
    hide Reduce;
    if es != [] {
      FlightKept(a, es[..|es| - 1]);
      FlightStep(Run(a, es[..|es| - 1]), es[|es| - 1]);
    }
  }

  // A failure no fail or stop can turn into one that offers Pay.
  predicate Guarded(a: Attempt) { IsPaused(a) || IsHeld(a) }

  predicate OffersPay(a: Attempt) { a.Failed? && a.retryable }

  // Every fail or stop up to the first pause keeps the hold, or is a retryable one the hold turns away.
  predicate KeepsHold(es: seq<Event>)
    requires forall e <- es :: e.Fail? || e.Stop?
  {
    es == [] ||
    (if es[0].retryable then KeepsHold(es[1..])
     else es[0].Fail? && (es[0].paused || (es[0].held && KeepsHold(es[1..]))))
  }

  // In one step a held failure never becomes one that offers Pay.
  lemma HeldStep(a: Attempt, e: Event)
    requires a.Failed? && a.held && !a.retryable && (e.Fail? || e.Stop?)
    ensures !(Reduce(a, e).Failed? && Reduce(a, e).retryable)
  {
  }

  function RunFrom(a: Attempt, es: seq<Event>): Attempt
    decreases |es|
  {
    if es == [] then a else RunFrom(Reduce(a, es[0]), es[1..])
  }

  lemma {:induction false} RunFromIsRun(a: Attempt, es: seq<Event>)
    ensures RunFrom(a, es) == Run(a, es)
    decreases |es|
  {
    if |es| > 1 {
      var n := |es| - 1;
      RunFromIsRun(Reduce(a, es[0]), es[1..]);
      RunFromIsRun(a, es[..n]);
      RunFromIsRun(Reduce(a, es[0]), es[1..n]);
      assert es[1..][..n - 1] == es[1..n] == es[..n][1..];
    } else if |es| == 1 {
      assert es[..0] == [];
    }
  }

  // Over a run of fails and stops the guard lasts exactly when every event keeps the hold.
  lemma {:induction false} HeldWhileKept(a: Attempt, es: seq<Event>)
    requires IsHeld(a) && !IsPaused(a) && !a.retryable
    requires forall e <- es :: e.Fail? || e.Stop?
    ensures (forall k :: 0 <= k <= |es| ==> Guarded(Run(a, es[..k]))) <==> KeepsHold(es)
    ensures KeepsHold(es) ==> !OffersPay(Run(a, es)) || IsPaused(Run(a, es))
    decreases |es|
  {
    if es == [] {
    } else {
      var b, rest := Reduce(a, es[0]), es[1..];
      forall k | 0 < k <= |es| ensures Run(a, es[..k]) == Run(b, rest[..k - 1]) {
        RunFromIsRun(a, es[..k]);
        RunFromIsRun(b, rest[..k - 1]);
        assert es[..k][1..] == rest[..k - 1];
      }
      assert es[..|es|] == es && rest[..|rest|] == rest && es[..0] == [];
      if IsPaused(b) {
        forall k | 0 <= k <= |rest| ensures Run(b, rest[..k]) == b { PausedIsFinal(b, rest[..k]); }
        forall k | 0 <= k <= |es| ensures Guarded(Run(a, es[..k])) {
          if k > 0 { assert Run(a, es[..k]) == Run(b, rest[..k - 1]); }
        }
      } else if IsHeld(b) {
        HeldWhileKept(b, rest);
        if KeepsHold(rest) {
          forall k | 0 <= k <= |es| ensures Guarded(Run(a, es[..k])) {
            if k > 0 { assert Guarded(Run(b, rest[..k - 1])); }
          }
        }
        if forall k :: 0 <= k <= |es| ==> Guarded(Run(a, es[..k])) {
          forall k | 0 <= k <= |rest| ensures Guarded(Run(b, rest[..k])) {
            assert Guarded(Run(a, es[..k + 1])) && rest[..k] == rest[..k + 1 - 1];
          }
        }
      } else {
        assert rest[..0] == [];
        assert Run(a, es[..1]) == Run(b, rest[..0]) == b;
        assert !Guarded(Run(a, es[..1]));
      }
    }
  }

  // Two dispatches the types allow: a plain final failure drops the hold, and a retryable one then offers Pay.
  lemma HoldCanBeDropped()
    ensures var held := Failed("unconfirmed", None, false, false, true, false, None, None, false);
            var es := [Fail("nothing to continue", None, false, false, false, Some(true), None, None),
                       Fail("could not check", None, true, false, false, None, None, None)];
            IsHeld(held) && OffersPay(Run(held, es)) && !KeepsHold(es)
  {
  }

  // ---------------------------------------------------------------- what the screen reads

  datatype LiveStage = AtIdle | AtPaying | AtContinue | AtDeposit | AtShortfall | AtWaiting | AtFailed

  datatype View = View(
    stage: LiveStage, error: Option<string>, code: Option<string>, retryable: bool, canContinue: bool,
    missingUsdc: Option<string>, walletShort: bool, swapStage: SellStage, order: Option<PaycrestOrder>,
    notice: Option<string>, swapped: bool)

  function Base(stage: LiveStage, swapped: bool): View {
    View(stage, None, None, true, false, None, false, StageIdle, None, None, swapped)
  }

  function StageOr(s: Option<SellStage>, other: SellStage): SellStage { if s.Some? then s.value else other }

  function ViewOf(a: Attempt): View {
    match a
    case Idle => Base(AtIdle, false)
    case Paying(_, s, o, _) => Base(AtPaying, WasSwapped(a)).(swapStage := StageOr(s, StageIdle), order := o)
    case Continue(_, _) => Base(AtContinue, WasSwapped(a)).(canContinue := true)
    case Deposit(o, err) => Base(AtDeposit, WasSwapped(a)).(retryable := false, error := err, order := Some(o))
    case Shortfall(_, m, w, _) =>
      Base(AtShortfall, WasSwapped(a)).(missingUsdc := m, walletShort := w, swapStage := StageShortfall)
    case Waiting(s, o, note, _) =>
      Base(AtWaiting, WasSwapped(a)).(swapStage := StageOr(s, StageIdle), order := o, notice := note)
    case Failed(m, c, r, p, _, n, _, o, _) =>
      Base(AtFailed, WasSwapped(a)).(
        error := Some(m), code := c, retryable := r, canContinue := !r && !p && !n, order := o)
  }

  predicate IsUnresolved(v: View) { v.stage != AtIdle && !(v.stage == AtFailed && v.retryable) }

  // The live form may come down only on an attempt that never started or whose failure is safe to retry;
  // a failure that is not safe to retry shows exactly one way on, or none when paused or nothing continues.
  lemma ResolvedOnlyWhenSafe(a: Attempt)
    ensures !IsUnresolved(ViewOf(a)) <==> a.Idle? || (a.Failed? && a.retryable)
    ensures a.Failed? ==> !(ViewOf(a).retryable && ViewOf(a).canContinue)
    ensures a.Failed? && a.paused ==> !ViewOf(a).canContinue
  {
  }

  // The sale a failure, a shortfall or a payment of hers to continue goes on with.
  function IntentOf(a: Attempt): Option<SellIntent> {
    match a
    case Continue(i, _) => Some(i)
    case Shortfall(i, _, _, _) => i
    case Failed(_, _, _, _, _, _, i, _, _) => i
    case _ => None
  }

  // What the screen shows after each event that is not turned away.
  lemma EventIsShown(a: Attempt, e: Event)
    requires !(a.Failed? && a.paused)
    requires !(a.Failed? && a.held && (e.Fail? || e.Stop?) && e.retryable)
    requires a.Paying? ==> !e.Begin? && !e.Reset?
    ensures var a' := Reduce(a, e); var v := ViewOf(a');
      match e
      case Begin =>
        v.stage == AtPaying && v.swapStage == StageIdle && v.order.None? && !v.swapped && !WalletTried(a')
      case Progress(s, o) => v.stage == AtPaying && v.swapStage == s && v.order == o
      case Handed(s, o, note) =>
        v.stage == AtWaiting && v.order == o && v.notice == note &&
        v.swapStage == (if s.Some? then s.value else StageIdle)
      case Stop(m, r, i, o) =>
        v.stage == AtFailed && v.error == Some(m) && v.code.None? && v.retryable == r && v.order == o &&
        (v.canContinue <==> !r && i.Some?) && IntentOf(a') == i && !(a'.held || a'.paused)
      case Short(m, i) =>
        v.stage == AtShortfall && v.missingUsdc == m && v.walletShort == WalletTried(a) && v.swapped &&
        v.swapStage == StageShortfall && IntentOf(a') == i
      case WalletOffered => v.stage == AtPaying && v.swapStage == Ordering && v.swapped && WalletTried(a')
      case NeedsHer(i) => v.stage == AtContinue && v.canContinue && v.swapped && IntentOf(a') == Some(i)
      case AwaitDeposit(o, err) =>
        v.stage == AtDeposit && !v.retryable && !v.canContinue && v.order == Some(o) && v.error == err
      case Fail(m, c, r, p, h, n, i, o) =>
        v.stage == AtFailed && v.error == Some(m) && v.code == c && v.retryable == r && v.order == o &&
        (v.canContinue <==> !r && !p && n != Some(true) && (n == Some(false) || i.Some?)) &&
        IntentOf(a') == i && a'.held == h && a'.paused == p
      case Reset => v.stage == AtIdle
  {
  }

  // What each stage offers her and shows: Pay exactly where nothing of hers is under way or all of it failed for good
  // to retry, Continue where something is left to be done by her, an amount short only when it is, and so on.
  lemma StageShows(a: Attempt)
    ensures var v := ViewOf(a);
      (v.stage == AtIdle <==> a.Idle?) &&
      match v.stage
      case AtContinue => v.retryable && v.canContinue && v.order.None?
      case AtDeposit => !v.retryable && !v.canContinue && v.order.Some?
      case AtShortfall => v.retryable && !v.canContinue && v.order.None? && v.swapStage == StageShortfall
      case AtFailed => v.error.Some?
      case _ => v.retryable && !v.canContinue
    ensures var v := ViewOf(a);
            (v.error.Some? ==> v.stage == AtFailed || v.stage == AtDeposit) && (v.code.Some? ==> v.stage == AtFailed) &&
            (v.missingUsdc.Some? || v.walletShort ==> v.stage == AtShortfall) &&
            (v.notice.Some? ==> v.stage == AtWaiting)
  {
  }

  // The React shell: `current` is the ref, `mirror` the render-time copy.
  class AttemptRef {
    var current: Attempt
    var mirror: Attempt
    ghost var history: seq<Event>

    ghost predicate Valid()
      reads this
    {
      current == mirror == Run(Idle, history)
    }

    constructor ()
      ensures Valid() && current.Idle? && history == []
    {
      current, mirror, history := Idle, Idle, [];
    }

    method Dispatch(e: Event)
      requires Valid()
      modifies this
      ensures Valid() && history == old(history) + [e]
      ensures current == Reduce(old(current), e)
    {
      var next := Reduce(current, e);
      if next != current {
        current := next;
        mirror := next;
      }
      history := history + [e];
      assert history[..|history| - 1] == old(history);
    }
  }
}
