// What a call of the crypto payment leaves behind when it ends: which failure the screen shows, what is stored, and
// the sale lock.
module PayCryptoOutcomes {
  import opened Common
  import opened PayHold
  import opened PayTypes
  import opened PayAttempt
  import opened PayCrypto
  import opened PayCryptoSafety

  // ---------------------------------------------------------------- what the screen shows

  // A failure that offers no Pay. Held: her swap may reach the merchant.
  predicate NoPay(a: Attempt, held: bool, goesOn: bool) {
    a.Failed? && a.held == held && !a.retryable && !a.paused && ViewOf(a).canContinue == goesOn
  }

  // A failure that offers Pay, unless the attempt was held: then nothing changes.
  predicate PayOrHeld(was: Attempt, a: Attempt) {
    if was.Failed? && was.held then a == was else a.Failed? && a.retryable && !a.held && !a.paused
  }

  predicate Unpaused(a: Attempt) { !(a.Failed? && a.paused) }

  // What each thing a call says does to an attempt.
  lemma SaidHeld(a: Attempt)
    requires Unpaused(a)
    ensures NoPay(Reduce(a, NotConfirmed()), true, true) && NoPay(Reduce(a, UnconfirmedFinal()), true, false)
    ensures NoPay(Reduce(a, FailEvent("hold unreadable", false, true, Some(false))), true, true)
    ensures NoPay(Reduce(a, NotSentEvent()), false, false)
    ensures NoPay(Reduce(a, FailEvent("nothing to continue", false, false, Some(true))), false, false)
  {
  }

  lemma SaidElse(a: Attempt)
    requires Unpaused(a)
    ensures PayOrHeld(a, Reduce(a, FailEvent("could not check", true, false, None)))
    ensures PayOrHeld(a, Reduce(a, FailEvent("not started", true, false, None)))
    ensures PayOrHeld(a, Reduce(a, FailEvent("unsupported network", true, false, None)))
    ensures PayOrHeld(a, Reduce(a, FailEvent("another sale is running", true, false, None)))
    ensures Reduce(a, WaitingEvent()).Waiting? && Reduce(a, Reset) == if a.Paying? then a else Idle
  {
  }

  lemma SaidPaused(a: Attempt)
    requires Unpaused(a)
    ensures var b := Reduce(a, Fail("paused", None, false, true, false, None, None, None));
            b.Failed? && b.paused && !b.retryable && !ViewOf(b).canContinue
  {
  }

  // A failure or a wait is not in flight.
  lemma EndsFlight()
    ensures forall a: Attempt, e: Event :: e.Fail? || e.Handed? ==> !Reduce(a, e).Paying?
  {
  }

  // A report ends a call: the server refused the hash, or three answers were lost, or it was taken.
  lemma ReportShows(w: World, k: Hook, pc: Pc, a: Answer, io: Io)
    requires Unpaused(k.attempt) && CanAnswer(w, pc, a, io) && (pc.CheckReport? || pc.RunReport?)
    requires Answered(w, k, pc, a, io).pc.None?
    ensures var b := Answered(w, k, pc, a, io).k.attempt;
            (a.Refused? ==> NoPay(b, true, false)) && (a.Lost? ==> pc.tries >= 2 && NoPay(b, true, true)) &&
            (a.Taken? ==> b.Waiting?)
  {
    hide Reduce, ViewOf, NoPay, PayOrHeld, WriteHold, Release, ReportWorld;
    SaidHeld(k.attempt);
    SaidElse(k.attempt);
    EndsFlight();
    match pc {
      case CheckReport(_, _, _) =>
      case RunReport(_, _, _) =>
    }
  }

  // A check that asked the server: held, with a way on, when a hold was found and the server does not answer; and she
  // waits when the server has the swap, or has nothing to be told.
  lemma OpenShows(w: World, k: Hook, pc: Pc, a: Answer, io: Io)
    requires Unpaused(k.attempt) && CanAnswer(w, pc, a, io) && pc.CheckOpen? && Answered(w, k, pc, a, io).pc.None?
    ensures var b := Answered(w, k, pc, a, io).k.attempt;
            if a.NoAnswer? then (if pc.held.Some? then NoPay(b, true, true) else PayOrHeld(k.attempt, b))
            else if w.open.None? && pc.explicit then NoPay(b, false, false)
            else b.Waiting?
    ensures a.OpenIs? ==> if w.open.Some? then w.open.value.id in w.known || (!w.open.value.swapping && pc.held.None?)
                          else pc.held.None?
  {
    hide Reduce, ViewOf, NoPay, PayOrHeld, WriteHold, Lift;
    SaidHeld(k.attempt);
    SaidElse(k.attempt);
    EndsFlight();
  }

  // A check that looked for the hash: under a hold and with none, held for good.
  lemma HashShows(w: World, k: Hook, pc: Pc, a: Answer, io: Io)
    requires Unpaused(k.attempt) && CanAnswer(w, pc, a, io) && pc.CheckHash? && Answered(w, k, pc, a, io).pc.None?
    ensures var b := Answered(w, k, pc, a, io).k.attempt; if pc.isHeld then NoPay(b, true, false) else b.Waiting?
    ensures !(a.HashIs? && pc.intent in w.hashes)
  {
    hide Reduce, ViewOf, NoPay, PayOrHeld, WriteHold;
    SaidHeld(k.attempt);
    SaidElse(k.attempt);
    EndsFlight();
  }

  // A run that ends before any report: nothing was signed or sent, and neither Pay nor Continue is offered; or nothing
  // was started, and Pay is.
  lemma RunShows(w: World, k: Hook, pc: Pc, a: Answer, io: Io)
    requires Unpaused(k.attempt) && CanAnswer(w, pc, a, io) && (pc.RunCreate? || pc.RunSign? || pc.RunAnswer?)
    requires Answered(w, k, pc, a, io).pc.None?
    ensures var b := Answered(w, k, pc, a, io).k.attempt;
      match a
      case NotSigned(_, _) => NoPay(b, false, false)
      case NotSaved(_) => NoPay(b, false, false)
      case NotSent(_) => NoPay(b, false, false)
      case PausedByServer => b.Failed? && b.paused && !b.retryable && !ViewOf(b).canContinue
      case NotStarted => PayOrHeld(k.attempt, b)
      case _ => k.checking && b == k.attempt
  {
    hide Reduce, ViewOf, NoPay, PayOrHeld, Lift, Abandon, Release, OpenNew, EndStart;
    if pc.RunCreate? { CreateShows(w, k, pc, a); } else { SaidHeld(k.attempt); }
  }

  lemma CreateShows(w: World, k: Hook, pc: Pc, a: Answer)
    requires Unpaused(k.attempt) && pc.RunCreate? && OnRunCreate(w, k, pc, a).pc.None?
    ensures var b := OnRunCreate(w, k, pc, a).k.attempt;
      match a
      case PausedByServer => b.Failed? && b.paused && !b.retryable && !ViewOf(b).canContinue
      case NotStarted => PayOrHeld(k.attempt, b)
      case CreatedUnheard(_) => k.checking && b == k.attempt
      case InProgress => k.checking && b == k.attempt
      case _ => true
  {
    hide Reduce, ViewOf, NoPay, PayOrHeld, OpenNew, EndStart;
    SaidElse(k.attempt);
    SaidPaused(k.attempt);
  }

  // A start the server may have made goes on to a check that asks for nothing, unless one is under way: the intent is
  // open, and neither Pay nor Continue was decided.
  lemma UnheardGoesOn(w: World, k: Hook, pc: Pc, a: Answer, io: Io)
    requires CanAnswer(w, pc, a, io) && (a.InProgress? || a.CreatedUnheard?)
    ensures var o := Answered(w, k, pc, a, io);
            o.k == k.(checking := true) && o.pc == (if k.checking then None else Some(CheckRead(false, Nothing))) &&
            (a.InProgress? ==> o.w.open == w.open) && (a.CreatedUnheard? ==> o.w.open == Some(OpenIntent(a.id, true)))
  {
  }

  // A hold that cannot be read is a held failure with a way on, whatever was asked.
  lemma UnreadShows(w: World, k: Hook, pc: Pc, a: Answer, io: Io)
    requires Unpaused(k.attempt) && CanAnswer(w, pc, a, io)
    requires pc.MountRead? || pc.CheckRead? || pc.RunRead? || pc.ResetRead?
    requires a.StorageFailed? || w.hold.Unreadable?
    ensures var o := Answered(w, k, pc, a, io); o.pc.None? && NoPay(o.k.attempt, true, true) && o.k.storageUnknown
  {
    hide Reduce, ViewOf, NoPay, PayOrHeld, ReadWorld;
    SaidHeld(k.attempt);
    SaidElse(k.attempt);
    EndsFlight();
    match pc {
      case MountRead =>
      case CheckRead(_, _) =>
      case RunRead =>
      case ResetRead =>
    }
  }

  // A hold that was read: an active one goes to a check, if none is under way, and never on to a payment; with none a
  // run is stopped only by the network or another sale.
  lemma RunGoesOn(w: World, k: Hook, a: Answer, io: Io)
    requires Unpaused(k.attempt) && a.StorageRead? && !w.hold.Unreadable?
    ensures var o := Answered(w, k, RunRead, a, io); var active := w.hold.Hold? && w.now <= w.hold.at + 86_400_000;
            !o.k.storageUnknown &&
            (active && !k.checking ==>
               o.k.checking && o.k.attempt == k.attempt && o.pc == Some(CheckRead(false, AfterRun))) &&
            (active && k.checking ==> o.pc.None? && (k.attempt.Paying? ==> NoPay(o.k.attempt, true, true))) &&
            (!active && k.attempt.Paying? ==>
               if a.evm && w.inFlight == {} && w.starts == 0 && w.others == 0
               then o.k.attempt == k.attempt && o.pc.Some? && o.pc.value.RunCreate?
               else o.pc.None? && o.k.attempt.Failed? && o.k.attempt.retryable)
  {
    hide Reduce, ViewOf, NoPay;
    SaidHeld(k.attempt);
    SaidElse(k.attempt);
  }

  // And a reset under an active hold goes to a check too, never to idle; with none it is one.
  lemma ResetGoesOn(w: World, k: Hook, a: Answer, io: Io)
    requires Unpaused(k.attempt) && a.StorageRead? && !w.hold.Unreadable?
    ensures var o := Answered(w, k, ResetRead, a, io); var active := w.hold.Hold? && w.now <= w.hold.at + 86_400_000;
            !o.k.storageUnknown &&
            (active && !k.checking ==>
               o.k.checking && o.k.attempt == k.attempt && o.pc == Some(CheckRead(false, Nothing))) &&
            (active && k.checking ==> o.pc.None? && o.k.attempt == k.attempt) &&
            (!active ==> o.pc.None? && (!k.attempt.Paying? ==> o.k.attempt.Idle?))
  {
    hide Reduce;
    SaidElse(k.attempt);
    IdleStays();
  }

  lemma IdleStays()
    ensures Reduce(Idle, Reset) == Idle
  {
  }

  // Pay is withheld until the screen's own first look is over: opening a screen looks at the hold, under an active one
  // checks on it first, and nothing else says the hold was looked at.
  lemma FirstLook(w: World, k: Hook, pc: Pc, a: Answer, io: Io)
    requires CanAnswer(w, pc, a, io) && pc.MountRead?
    ensures var o := Answered(w, k, pc, a, io);
            var active := a.StorageRead? && w.hold.Hold? && w.now <= w.hold.at + 86_400_000;
            (o.k.storageUnknown <==> a.StorageFailed? || w.hold.Unreadable?) &&
            if active && !k.checking
            then o.pc == Some(CheckRead(false, AfterMount)) && o.k.checking && o.k.holdChecked == k.holdChecked
            else o.pc.None? && o.k.holdChecked && o.k.checking == k.checking
  {
    hide Reduce;
  }

  predicate IsFirstLook(pc: Pc) {
    match pc
    case MountRead => true
    case CheckRead(_, after) => after == AfterMount
    case CheckOpen(_, _, after) => after == AfterMount
    case CheckHash(_, _, after) => after == AfterMount
    case CheckReport(_, _, after) => after == AfterMount
    case _ => false
  }

  lemma LookedAtOnce(w: World, k: Hook, pc: Pc, a: Answer, io: Io)
    requires CanAnswer(w, pc, a, io)
    ensures var o := Answered(w, k, pc, a, io);
            (o.k.holdChecked <==> k.holdChecked || (IsFirstLook(pc) && o.pc.None?)) &&
            (o.pc.Some? ==> (IsFirstLook(o.pc.value) <==> IsFirstLook(pc)))
  {
    hide Reduce, Lift, WriteHold, ReportWorld, Abandon, OpenNew;
    if pc.CheckOpen? || pc.CheckHash? || pc.CheckReport? { CheckLooked(w, k, pc, a, io); }
    else if Claims(pc) { ClaimLooked(w, k, pc, a, io); }
    else {
      match pc {
        case MountRead =>
        case CheckRead(_, _) =>
        case RunRead =>
        case ResetRead =>
      }
    }
  }

  lemma ClaimLooked(w: World, k: Hook, pc: Pc, a: Answer, io: Io)
    requires CanAnswer(w, pc, a, io) && Claims(pc)
    ensures var o := Answered(w, k, pc, a, io);
            o.k.holdChecked == k.holdChecked && (o.pc.Some? ==> !IsFirstLook(o.pc.value))
  {
    hide Reduce, Lift, WriteHold, ReportWorld, Abandon, OpenNew;
  }

  lemma CheckLooked(w: World, k: Hook, pc: Pc, a: Answer, io: Io)
    requires CanAnswer(w, pc, a, io) && (pc.CheckOpen? || pc.CheckHash? || pc.CheckReport?)
    ensures var o := Answered(w, k, pc, a, io);
            (o.k.holdChecked <==> k.holdChecked || (IsFirstLook(pc) && o.pc.None?)) &&
            (o.pc.Some? ==> (IsFirstLook(o.pc.value) <==> IsFirstLook(pc)))
  {
    hide Reduce, Lift, WriteHold, ReportWorld, FailEvent, NotConfirmed, UnconfirmedFinal;
  }

  // A check goes on with the intent it found held, or with none; after a doubt that was only doubt it is over.
  lemma CheckGoesOn(w: World, k: Hook, pc: Pc, a: Answer, io: Io)
    requires CanAnswer(w, pc, a, io) && pc.CheckRead? && a.StorageRead? && !w.hold.Unreadable?
    ensures var o := Answered(w, k, pc, a, io); var active := w.hold.Hold? && w.now <= w.hold.at + 86_400_000;
            !o.k.storageUnknown &&
            (if active
             then o.pc == Some(CheckOpen(pc.explicit, Some(w.hold.intent), pc.after)) && o.k.attempt == k.attempt
             else if k.storageUnknown then o.pc.None? && !o.k.checking
             else o.pc == Some(CheckOpen(pc.explicit, None, pc.after)) && o.k.attempt == k.attempt)
  {
    hide Reduce, Lift;
  }

  // A record that has run out goes when it is read, with its hash; nothing else is touched by a read.
  lemma ReadDrops(w: World, k: Hook, pc: Pc, a: Answer, io: Io)
    requires CanAnswer(w, pc, a, io) && (pc.MountRead? || pc.CheckRead? || pc.ResetRead?)
    ensures var w' := Answered(w, k, pc, a, io).w;
            var over := a.StorageRead? && w.hold.Hold? && w.now > w.hold.at + 86_400_000;
            if over then LetGo(w, w', w.hold.intent, io) && w' == w.(hold := w'.hold, hashes := w'.hashes) else w' == w
  {
    hide Reduce;
  }

  // What she asks of a screen: one attempt at a time, nothing on a paused one, a look before anything else, and a
  // check only when none is under way.
  lemma AskShows(s: State, t: Step)
    requires Enabled(s, t) && (t.Mount? || t.AskCheck? || t.AskRun? || t.AskReset?)
    ensures var s' := Next(s, t);
      match t
      case Mount(c, h) =>
        s' == State(s.w, s.hooks[h := Hook(Idle, false, false, false)], s.calls[c := Call(h, MountRead)])
      case AskCheck(c, h, explicit) =>
        s' == if s.hooks[h].checking then s
              else State(s.w, s.hooks[h := s.hooks[h].(checking := true)],
                         s.calls[c := Call(h, CheckRead(explicit, Nothing))])
      case AskRun(c, h) =>
        var k := s.hooks[h];
        s' == if k.attempt.Paying? || (k.attempt.Failed? && k.attempt.paused) then s
              else State(s.w, s.hooks[h := k.(attempt := Paying(false, None, None, false))],
                         s.calls[c := Call(h, RunRead)])
      case AskReset(c, h) =>
        var k := s.hooks[h];
        s' == if k.attempt.Paying? || (k.attempt.Failed? && k.attempt.paused) then s
              else State(s.w, s.hooks, s.calls[c := Call(h, ResetRead)])
      case _ => true
  {
    if t.AskCheck? || t.AskRun? {
      assert s.hooks[t.h := s.hooks[t.h]] == s.hooks;
      assert s.calls - {t.c} == s.calls;
    }
    if t.AskReset? { assert s.hooks[t.h := s.hooks[t.h]] == s.hooks; }
  }

  // Whatever ends a call on a screen the server has not paused, from the answer alone.
  lemma EndShows(s: State, t: Step)
    requires Enabled(s, t) && t.Advance? && t.c !in Next(s, t).calls && Unpaused(s.hooks[s.calls[t.c].hook].attempt)
    ensures var pc, b := s.calls[t.c].pc, Next(s, t).hooks[s.calls[t.c].hook].attempt;
            (t.a.Refused? || (pc.CheckHash? && pc.isHeld) ==> NoPay(b, true, false)) &&
            (t.a.Lost? || (t.a.NoAnswer? && pc.held.Some?) ==> NoPay(b, true, true)) &&
            (t.a.Lost? ==> pc.tries >= 2) &&
            (t.a.Taken? || (t.a.OpenIs? && s.w.open.Some? && s.w.open.value.id in s.w.known) ==> b.Waiting?) &&
            (t.a.NotSigned? || t.a.NotSaved? || t.a.NotSent? ==> NoPay(b, false, false)) &&
            (t.a.StorageFailed? ==> NoPay(b, true, true)) && (t.a.PausedByServer? ==> b.Failed? && b.paused)
  {
    hide Reduce, ViewOf, NoPay, PayOrHeld, Answered;
    var k, pc := s.hooks[s.calls[t.c].hook], s.calls[t.c].pc;
    if pc.CheckReport? || pc.RunReport? { ReportShows(s.w, k, pc, t.a, t.io); }
    else if pc.CheckOpen? { OpenShows(s.w, k, pc, t.a, t.io); }
    else if pc.CheckHash? { HashShows(s.w, k, pc, t.a, t.io); }
    else if pc.RunCreate? || pc.RunSign? || pc.RunAnswer? { RunShows(s.w, k, pc, t.a, t.io); }
    else if t.a.StorageFailed? { UnreadShows(s.w, k, pc, t.a, t.io); }
  }

  // ---------------------------------------------------------------- what is stored

  // A record for intent i from now, if nothing was stored and storage works; else what was there.
  predicate HeldFor(h: Stored, h': Stored, i: IntentId, now: nat, io: Io) {
    h' == if h == NoHold && io.writes then Hold(i, now) else h
  }

  // Record and hash of intent i let go of, as far as storage does.
  predicate LetGo(w: World, w': World, i: IntentId, io: Io) {
    (w'.hold == if io.dropsHold then NoHold else w.hold) &&
    (w'.hashes == if io.dropsHash then w.hashes - {i} else w.hashes)
  }

  // A swap the server does not take is held for, and its hash kept; one it takes is let go of.
  lemma ReportStores(w: World, k: Hook, pc: Pc, a: Answer, io: Io)
    requires CanAnswer(w, pc, a, io) && (pc.CheckReport? || pc.RunReport?)
    ensures var o := Answered(w, k, pc, a, io); var i := pc.intent;
            (a.Taken? ==> i in o.w.known && LetGo(w, o.w, i, io)) &&
            (!a.Taken? ==> o.w.hashes == w.hashes) && (a.Lost? && a.taken ==> i in o.w.known) &&
            (!a.Taken? && o.pc.None? ==> HeldFor(w.hold, o.w.hold, i, w.now, io)) &&
            (o.pc.Some? ==> o.w.hold == w.hold) && (o.pc.None? <==> a.Taken? || a.Refused? || pc.tries >= 2)
  {
    hide Reduce;
    match pc {
      case CheckReport(_, _, _) =>
      case RunReport(_, _, _) =>
    }
  }

  // The server takes a hash only for the open intent, while that one waits for it or when it has it already; once it
  // has it, that intent waits for none and no other is known or open because of it.
  lemma HashTaken(w: World, pc: Pc, a: Answer, io: Io)
    requires CanAnswer(w, pc, a, io) && (a.Taken? || (a.Lost? && a.taken))
    ensures w.open.Some? && w.open.value.id == pc.intent && (w.open.value.swapping || pc.intent in w.known)
    ensures var w' := ReportWorld(w, pc.intent, a, io);
            w'.open == Some(OpenIntent(pc.intent, false)) && w'.known == w.known + {pc.intent}
  {
  }

  // What goes on around the calls touches one thing each.
  lemma AroundTheCalls(s: State, t: Step)
    requires Enabled(s, t) && !t.Advance?
    ensures var w, w' := s.w, Next(s, t).w;
      match t
      case Tick(ms) => w'.now == w.now + ms && w' == w.(now := w'.now)
      case Kill => Next(s, t).calls == map[] && !AnySaleRunning(w') && w'.hold == w.hold && w'.swaps == w.swaps
      case ServerCloses => w'.open.None? && w' == w.(open := None)
      case ServerStalls => w'.open == Some(OpenIntent(w.open.value.id, false)) && w' == w.(open := w'.open)
      case ServerLearns => w.open.value.id in w'.known && w' == w.(known := w'.known, open := w'.open)
      case PaymentEnds => w'.terminal && w' == w.(terminal := true)
      case ScreenClears(io) => (io.dropsHold ==> w'.hold.NoHold?) && w' == w.(hold := w'.hold)
      case Corrupt => w'.hold.Unreadable? && w' == w.(hold := w'.hold)
      case OthersRun(n) => w'.others == n && w' == w.(others := n)
      case _ => w' == w
  {
    hide Reduce;
  }

  // A check holds for what it found held or open, and reports the hash stored for the open intent, or for the held
  // one when none is open.
  lemma CheckStores(w: World, k: Hook, pc: Pc, a: Answer, io: Io)
    requires CanAnswer(w, pc, a, io) && (pc.CheckOpen? || pc.CheckHash?)
    ensures var o := Answered(w, k, pc, a, io);
      match pc
      case CheckOpen(_, held, _) =>
        (a.NoAnswer? && held.Some? ==> HeldFor(w.hold, o.w.hold, held.value, w.now, io)) &&
        (a.OpenIs? && w.open.Some? && w.open.value.id in w.known ==> LetGo(w, o.w, w.open.value.id, io)) &&
        (o.pc.Some? ==> o.w == w && o.pc.value.CheckHash? && (o.pc.value.isHeld <==> held.Some?) &&
                        Some(o.pc.value.intent) == if w.open.Some? then Some(w.open.value.id) else held)
      case CheckHash(i, isHeld, after) =>
        (o.pc.Some? <==> a.HashIs? && i in w.hashes) &&
        (o.pc.Some? ==> o.w == w && o.pc == Some(CheckReport(i, 0, after))) &&
        (o.pc.None? && isHeld ==> HeldFor(w.hold, o.w.hold, i, w.now, io))
      case _ => true
  {
    hide Reduce;
    match pc {
      case CheckOpen(_, _, _) =>
      case CheckHash(_, _, _) =>
    }
  }

  // A swap is handed over with its hash and a record stored; one that did not go out leaves neither, and its intent
  // closed when the server closed it.
  lemma RunStores(w: World, k: Hook, pc: Pc, a: Answer, io: Io)
    requires CanAnswer(w, pc, a, io) && (pc.RunSign? || pc.RunAnswer?)
    ensures var o := Answered(w, k, pc, a, io); var i := pc.intent;
      match a
      case Signed => i in o.w.hashes && o.w.hold.Hold? && i in o.w.swaps && o.pc == Some(RunAnswer(i)) &&
                     o.w.hold == (if w.hold.NoHold? then Hold(i, w.now) else w.hold)
      case Sent => o.w == w && o.pc == Some(RunReport(i, 0, true))
      case Unconfirmed => o.w == w && o.pc == Some(RunReport(i, 0, false))
      case NotSigned(early, closed) =>
        Closes(w, o.w, i, closed) &&
        (if early then o.w.hold == w.hold && o.w.hashes == w.hashes else LetGo(w, o.w, i, io))
      case NotSaved(closed) =>
        Closes(w, o.w, i, closed) && (o.w.hold == if io.dropsHold then NoHold else w.hold) &&
        (o.w.hashes == if io.dropsHash then w.hashes - {i} else if io.writes then w.hashes + {i} else w.hashes)
      case NotSent(closed) => Closes(w, o.w, i, closed) && LetGo(w, o.w, i, io) && i !in o.w.swaps
      case _ => true
  {
    hide Reduce;
    match pc {
      case RunSign(_, _, _) =>
      case RunAnswer(_) =>
    }
  }

  predicate Closes(w: World, w': World, i: IntentId, closed: bool) {
    (w'.open == if closed && w.open.Some? && w.open.value.id == i then None else w.open) && i !in w'.inFlight
  }

  // ---------------------------------------------------------------- the sale lock

  // The lock is one run's, or nobody's.
  ghost predicate LockInv(s: State) {
    && (forall c <- s.calls :: s.calls[c].pc.RunCreate? ==> s.w.starts == 1 && s.w.inFlight == {})
    && (forall c <- s.calls :: Claims(s.calls[c].pc) && !s.calls[c].pc.RunCreate? ==>
          s.w.starts == 0 && s.w.inFlight == {s.calls[c].pc.intent})
    && ((forall c <- s.calls :: !Claims(s.calls[c].pc)) ==> s.w.starts == 0 && s.w.inFlight == {})
  }

  lemma ClaimKeepsLock(w: World, k: Hook, pc: Pc, a: Answer, io: Io)
    requires CanAnswer(w, pc, a, io) && Claims(pc)
    requires if pc.RunCreate? then w.starts == 1 && w.inFlight == {} else w.starts == 0 && w.inFlight == {pc.intent}
    ensures var o := Answered(w, k, pc, a, io);
            if o.pc.Some? && Claims(o.pc.value)
            then !o.pc.value.RunCreate? && o.w.starts == 0 && o.w.inFlight == {o.pc.value.intent}
            else o.w.starts == 0 && o.w.inFlight == {}
  {
    hide Reduce;
    match pc {
      case RunCreate(_, _) =>
      case RunSign(_, _, _) =>
      case RunAnswer(_) =>
      case RunReport(_, _, _) =>
    }
  }

  lemma OtherKeepsLock(w: World, k: Hook, pc: Pc, a: Answer, io: Io)
    requires CanAnswer(w, pc, a, io) && !Claims(pc)
    ensures var o := Answered(w, k, pc, a, io);
            if o.pc.Some? && Claims(o.pc.value)
            then o.pc.value.RunCreate? && !AnySaleRunning(w) && o.w.starts == 1 && o.w.inFlight == {}
            else o.w.starts == w.starts && o.w.inFlight == w.inFlight
  {
    hide Reduce, ReadHook;
    if pc.CheckOpen? || pc.CheckHash? || pc.CheckReport? { CheckKeepsLock(w, k, pc, a, io); }
    else {
      match pc {
        case MountRead =>
        case CheckRead(_, _) =>
        case RunRead =>
        case ResetRead =>
      }
    }
  }

  lemma CheckKeepsLock(w: World, k: Hook, pc: Pc, a: Answer, io: Io)
    requires CanAnswer(w, pc, a, io) && (pc.CheckOpen? || pc.CheckHash? || pc.CheckReport?)
    ensures var o := Answered(w, k, pc, a, io);
            (o.pc.Some? ==> !Claims(o.pc.value)) && o.w.starts == w.starts && o.w.inFlight == w.inFlight
  {
    hide Reduce;
  }

  // A run claims the lock only when no other has it.
  lemma FreeMeansNone(s: State)
    requires LockInv(s) && s.w.inFlight == {} && s.w.starts == 0
    ensures forall d <- s.calls :: !Claims(s.calls[d].pc)
  {
  }

  lemma ClaimingInstall(s: State, c: CallId, o: Out)
    requires LockInv(s) && c in s.calls && (forall d <- s.calls :: Claims(s.calls[d].pc) ==> d == c)
    requires if o.pc.Some? && Claims(o.pc.value)
             then !o.pc.value.RunCreate? && o.w.starts == 0 && o.w.inFlight == {o.pc.value.intent}
             else o.w.starts == 0 && o.w.inFlight == {}
    ensures LockInv(Install(s, c, s.calls[c].hook, o))
  {
    var s' := Install(s, c, s.calls[c].hook, o);
    assert forall d <- s'.calls :: d != c ==> d in s.calls && s'.calls[d] == s.calls[d];
    if o.pc.Some? { assert s'.calls[c].pc == o.pc.value; }
  }

  lemma OtherInstall(s: State, c: CallId, o: Out)
    requires LockInv(s) && c in s.calls && !Claims(s.calls[c].pc) && (o.pc.Some? ==> !Claims(o.pc.value))
    requires o.w.starts == s.w.starts && o.w.inFlight == s.w.inFlight
    ensures LockInv(Install(s, c, s.calls[c].hook, o))
  {
    var s' := Install(s, c, s.calls[c].hook, o);
    forall d <- s.calls | d != c ensures d in s'.calls && s'.calls[d] == s.calls[d] {}
    if forall d <- s'.calls :: !Claims(s'.calls[d].pc) { assert forall d <- s.calls :: !Claims(s.calls[d].pc); }
  }

  lemma FirstInstall(s: State, c: CallId, o: Out)
    requires (forall d <- s.calls :: !Claims(s.calls[d].pc)) && c in s.calls && o.pc.Some? && o.pc.value.RunCreate?
    requires o.w.starts == 1 && o.w.inFlight == {}
    ensures LockInv(Install(s, c, s.calls[c].hook, o))
  {
    var s' := Install(s, c, s.calls[c].hook, o);
    assert s'.calls[c].pc.RunCreate?;
  }

  lemma AnswerKeepsLock(s: State, c: CallId, a: Answer, io: Io)
    requires Inv(s) && LockInv(s) && Enabled(s, Advance(c, a, io))
    ensures LockInv(Next(s, Advance(c, a, io)))
  {
    hide Reduce, Answered, WorldInv, PcInv, CanAnswer, Install;
    var k, pc := s.hooks[s.calls[c].hook], s.calls[c].pc;
    var o := Answered(s.w, k, pc, a, io);
    if Claims(pc) {
      ClaimKeepsLock(s.w, k, pc, a, io);
      ClaimingInstall(s, c, o);
    } else {
      OtherKeepsLock(s.w, k, pc, a, io);
      if o.pc.Some? && Claims(o.pc.value) {
        FreeMeansNone(s);
        FirstInstall(s, c, o);
      } else {
        OtherInstall(s, c, o);
      }
    }
  }

  lemma AskKeepsLock(s: State, t: Step)
    requires LockInv(s) && Enabled(s, t) && !t.Advance? && !t.Kill?
    ensures LockInv(Next(s, t))
  {
    hide Reduce, AnySaleRunning;
    var s' := Next(s, t);
    assert s'.w.starts == s.w.starts && s'.w.inFlight == s.w.inFlight;
    assert forall d <- s.calls :: d in s'.calls && s'.calls[d] == s.calls[d];
    assert forall d <- s'.calls :: d in s.calls || !Claims(s'.calls[d].pc);
  }

  lemma StepKeepsLock(s: State, t: Step)
    requires Inv(s) && LockInv(s) && Enabled(s, t)
    ensures LockInv(Next(s, t))
  {
    hide Reduce, Answered, Inv, Enabled;
    if t.Advance? { AnswerKeepsLock(s, t.c, t.a, t.io); }
    else if !t.Kill? { AskKeepsLock(s, t); }
  }

  lemma {:induction false} PathKeepsLock(ss: seq<State>, ts: seq<Step>)
    requires Path(ss, ts) && Init(ss[0])
    ensures LockInv(ss[|ts|]) && Inv(ss[|ts|])
    decreases |ts|
  {
    if ts != [] {
      var n := |ts| - 1;
      PathKeepsLock(ss[..n + 1], ts[..n]);
      StepKeepsInv(ss[n], ts[n]);
      StepKeepsLock(ss[n], ts[n]);
    }
  }

  // The sale lock is never left behind: in every reachable state it is held exactly while a run of this payment is
  // past its claim.
  lemma LockIsARuns(s: State)
    requires Reachable(s)
    ensures s.w.inFlight != {} || s.w.starts > 0 <==>
              exists c <- s.calls :: s.calls[c].pc.RunCreate? || s.calls[c].pc.RunSign? || s.calls[c].pc.RunAnswer? ||
                                     s.calls[c].pc.RunReport?
  {
    var s0 :| Init(s0) && Leads(s0, s);
    var ss, ts :| Path(ss, ts) && ss[0] == s0 && ss[|ts|] == s;
    PathKeepsLock(ss, ts);
  }
}
