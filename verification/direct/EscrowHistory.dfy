// The escrow's own admins, tokens and owner, each change leaving its event
// (smart-contracts/contracts/P2PEscrowV3.sol), and the verifier read against them.
module EscrowHistory {
  import opened Common
  import opened VerifyDirect

  datatype Contract = Contract(initialized: bool, owner: Addr, admins: set<Addr>, accepted: set<Addr>, log: seq<Event>)

  // Calls anyone may send; those not allowed revert.
  datatype Call =
    | Initialize(owner: Addr, admins: seq<Addr>)
    | AddAdmin(sender: Addr, account: Addr)
    | RemoveAdmin(sender: Addr, account: Addr)
    | SetTokenAcceptance(sender: Addr, token: Addr, on: bool)
    | TransferOwnership(sender: Addr, to: Addr)
    | RenounceOwnership(sender: Addr)

  predicate ByOwner(c: Contract, sender: Addr) { sender != ZERO && sender == c.owner }

  predicate Allowed(c: Contract, call: Call) {
    match call
    case Initialize(owner, admins) =>
      && !c.initialized && owner != ZERO && (forall i :: 0 <= i < |admins| ==> admins[i] != ZERO)
      && (forall i, j :: 0 <= i < j < |admins| ==> admins[i] != admins[j])
    case AddAdmin(sender, a) => ByOwner(c, sender) && a != ZERO && a !in c.admins
    case RemoveAdmin(sender, a) => ByOwner(c, sender) && a in c.admins
    case SetTokenAcceptance(sender, token, _) => ByOwner(c, sender) && token != ZERO
    case TransferOwnership(sender, to) => ByOwner(c, sender) && to != ZERO
    case RenounceOwnership(sender) => ByOwner(c, sender)
  }

  function Listed(admins: seq<Addr>): seq<Event> {
    seq(|admins|, i requires 0 <= i < |admins| => AdminAdded(admins[i]))
  }

  function Members(admins: seq<Addr>): set<Addr> { set a <- admins }

  function Sent(c: Contract, call: Call): Contract {
    if !Allowed(c, call) then c
    else
      match call
      case Initialize(owner, admins) =>
        Contract(true, owner, Members(admins), c.accepted, c.log + [OwnershipTransferred(ZERO, owner)] + Listed(admins))
      case AddAdmin(_, a) => c.(admins := c.admins + {a}, log := c.log + [AdminAdded(a)])
      case RemoveAdmin(_, a) => c.(admins := c.admins - {a}, log := c.log + [AdminRemoved(a)])
      case SetTokenAcceptance(_, t, on) =>
        c.(accepted := if on then c.accepted + {t} else c.accepted - {t},
           log := c.log + [TokenAcceptanceUpdated(t, on)])
      case TransferOwnership(_, to) => c.(owner := to, log := c.log + [OwnershipTransferred(c.owner, to)])
      case RenounceOwnership(_) => c.(owner := ZERO, log := c.log + [OwnershipTransferred(c.owner, ZERO)])
  }

  function Deployed(calls: seq<Call>): Contract {
    if calls == [] then Contract(false, ZERO, {}, {}, [])
    else Sent(Deployed(calls[..|calls| - 1]), calls[|calls| - 1])
  }

  // Only the first initialisation and the owner change anything, and each call changes what it names.
  lemma CallsMean(c: Contract, call: Call)
    ensures var c' := Sent(c, call);
      match call
      case Initialize(owner, admins) =>
        var twice := exists i, j :: 0 <= i < j < |admins| && admins[i] == admins[j];
        if c.initialized || owner == 0 || 0 in admins || twice then c' == c
        else c'.initialized && c'.owner == owner && c'.accepted == c.accepted &&
             forall a :: a in c'.admins <==> a in admins
      case AddAdmin(sender, a) =>
        var may := sender == c.owner != 0 && a != 0 && a !in c.admins;
        c'.admins == (if may then c.admins + {a} else c.admins) && (c'.owner, c'.accepted) == (c.owner, c.accepted) &&
        c'.log == if may then c.log + [AdminAdded(a)] else c.log
      case RemoveAdmin(sender, a) =>
        var may := sender == c.owner != 0 && a in c.admins;
        c'.admins == (if may then c.admins - {a} else c.admins) && (c'.owner, c'.accepted) == (c.owner, c.accepted) &&
        c'.log == if may then c.log + [AdminRemoved(a)] else c.log
      case SetTokenAcceptance(sender, t, on) =>
        var may := sender == c.owner != 0 && t != 0;
        (c'.admins, c'.owner) == (c.admins, c.owner) &&
        c'.accepted == (if !may then c.accepted else if on then c.accepted + {t} else c.accepted - {t}) &&
        c'.log == if may then c.log + [TokenAcceptanceUpdated(t, on)] else c.log
      case TransferOwnership(sender, next) =>
        var may := sender == c.owner != 0 && next != 0;
        (c'.admins, c'.accepted) == (c.admins, c.accepted) && c'.owner == (if may then next else c.owner) &&
        c'.log == if may then c.log + [OwnershipTransferred(c.owner, next)] else c.log
      case RenounceOwnership(sender) =>
        var may := sender == c.owner != 0;
        (c'.admins, c'.accepted) == (c.admins, c.accepted) && c'.owner == (if may then 0 else c.owner) &&
        c'.log == if may then c.log + [OwnershipTransferred(c.owner, 0)] else c.log
  {
  }

  // The history tells the state, and is one the contract can have emitted.
  ghost predicate Tells(c: Contract) {
    && Genuine(c.log) && AdminsAfter(c.log) == c.admins && TokensAfter(c.log) == c.accepted
    && OwnerAfter(c.log) == c.owner
    && (c.initialized <==> exists n :: 0 <= n < |c.log| && c.log[n].OwnershipTransferred?)
    && (!c.initialized ==> c == Contract(false, ZERO, {}, {}, []))
  }

  lemma FoldsMore(es: seq<Event>, e: Event)
    ensures (es + [e])[..|es|] == es
    ensures AdminsAfter(es + [e]) == (if e.AdminAdded? then AdminsAfter(es) + {e.account}
                                      else if e.AdminRemoved? then AdminsAfter(es) - {e.account} else AdminsAfter(es))
    ensures TokensAfter(es + [e]) == (if !e.TokenAcceptanceUpdated? then TokensAfter(es)
                                      else if e.accepted then TokensAfter(es) + {e.token}
                                      else TokensAfter(es) - {e.token})
    ensures OwnerAfter(es + [e]) == if e.OwnershipTransferred? then e.next else OwnerAfter(es)
  {
    var more := es + [e];
    assert more[..|more| - 1] == es;
  }

  lemma OneMore(es: seq<Event>, e: Event)
    requires Genuine(es) && CanFollow(es, e)
    ensures Genuine(es + [e])
  {
    hide CanFollow;
    forall n | 0 <= n <= |es| ensures CanFollow((es + [e])[..n], (es + [e])[n]) {
      assert (es + [e])[..n] == es[..n] && es[..|es|] == es;
    }
  }

  lemma {:induction false} Initialized(owner: Addr, admins: seq<Addr>)
    requires owner != ZERO && forall i, j :: 0 <= i < j < |admins| ==> admins[i] != admins[j]
    ensures var es := [OwnershipTransferred(ZERO, owner)] + Listed(admins);
            Genuine(es) && AdminsAfter(es) == Members(admins) && TokensAfter(es) == {} && OwnerAfter(es) == owner
    decreases |admins|
  {
    var first := [OwnershipTransferred(ZERO, owner)];
    if admins == [] {
      assert first + Listed(admins) == first && first[..0] == [];
    } else {
      var n := |admins| - 1;
      var was := first + Listed(admins[..n]);
      Initialized(owner, admins[..n]);
      assert first + Listed(admins) == was + [AdminAdded(admins[n])];
      assert admins == admins[..n] + [admins[n]];
      FoldsMore(was, AdminAdded(admins[n]));
      OneMore(was, AdminAdded(admins[n]));
    }
  }

  lemma InitializeTells(c: Contract, call: Call)
    requires Tells(c) && call.Initialize? && Allowed(c, call)
    ensures Tells(Sent(c, call))
  {
    hide Genuine;
    Initialized(call.owner, call.admins);
    var c' := Sent(c, call);
    assert c'.log == [OwnershipTransferred(ZERO, call.owner)] + Listed(call.admins);
    assert c'.log[0].OwnershipTransferred?;
  }

  lemma SentTells(c: Contract, call: Call)
    requires Tells(c)
    ensures Tells(Sent(c, call))
  {
    hide Genuine, AdminsAfter, TokensAfter, OwnerAfter;
    var c' := Sent(c, call);
    if Allowed(c, call) {
      if call.Initialize? {
        InitializeTells(c, call);
      } else {
        var e := c'.log[|c.log|];
        FoldsMore(c.log, e);
        OneMore(c.log, e);
        assert c'.log == c.log + [e];
        assert forall n :: 0 <= n < |c.log| ==> c'.log[n] == c.log[n];
      }
    }
  }

  // Whatever calls anyone sends, from the deployment on.
  lemma {:induction false} HistoryTells(calls: seq<Call>)
    ensures Tells(Deployed(calls))
  {
    if calls != [] {
      HistoryTells(calls[..|calls| - 1]);
      SentTells(Deployed(calls[..|calls| - 1]), calls[|calls| - 1]);
    }
  }

  // ---------------------------------------------------------------- the verifier against the contract

  function EventsOf(logs: seq<Log>): (es: seq<Event>)
    ensures |es| == |logs|
  {
    seq(|logs|, i requires 0 <= i < |logs| => logs[i].event)
  }

  lemma {:induction false} AllBetween(logs: seq<Log>, first: int, last: int)
    requires forall l <- logs :: first <= l.block <= last
    ensures Between(logs, first, last) == logs
  {
    if logs != [] {
      AllBetween(logs[..|logs| - 1], first, last);
      assert logs[|logs| - 1] in logs;
    }
  }

  // The scan in windows of any size, then the replay and its checks. Over a chain that holds exactly what the contract
  // emitted under any calls, all of it in the scanned range, nothing is reported exactly when the contract's admins
  // are the arbiters and its accepted tokens are the plan's.
  method VerifyEscrow(chain: seq<Log>, answer: (int, int) -> seq<Log>, first: int, last: int, chunk: int,
                      ghost calls: seq<Call>, owner: Addr, arbiters: set<Addr>, tokens: set<Addr>)
    returns (mismatches: nat)
    requires chunk >= 1 && InOrder(chain)
    requires forall f, t {:trigger answer(f, t)} :: multiset(answer(f, t)) == multiset(Between(chain, f, t))
    requires EventsOf(chain) == Deployed(calls).log && forall l <- chain :: first <= l.block <= last
    requires owner == Deployed(calls).owner && arbiters != {}
    ensures mismatches == 0 <==> Deployed(calls).admins == arbiters && Deployed(calls).accepted == tokens
  {
    var logs := ScanLogs(chain, answer, first, last, chunk);
    AllBetween(chain, first, last);
    mismatches := VerifyHistory(EventsOf(logs), owner, arbiters, tokens);
    HistoryTells(calls);
    CleanMeansExact(Deployed(calls).log, owner, arbiters, tokens);
  }
}
