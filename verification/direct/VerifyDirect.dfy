// The read-back verifier's event history (smart-contracts/scripts/verify-direct-escrow.js).
module VerifyDirect {
  import opened Common

  datatype Event =
    | AdminAdded(account: Addr)
    | AdminRemoved(account: Addr)
    | TokenAcceptanceUpdated(token: Addr, accepted: bool)
    | OwnershipTransferred(prev: Addr, next: Addr)

  datatype Log = Log(block: int, index: int, event: Event)

  // ---------------------------------------------------------------- scanLogs

  // Chain order; no two logs share a position.
  predicate Before(a: Log, b: Log) { a.block < b.block || (a.block == b.block && a.index < b.index) }

  ghost predicate InOrder(logs: seq<Log>) { forall i, j :: 0 <= i < j < |logs| ==> Before(logs[i], logs[j]) }

  // Chain order is by block, and within a block by index.
  lemma OrderMeans(logs: seq<Log>)
    ensures InOrder(logs) <==>
              forall i, j :: 0 <= i < j < |logs| ==>
                logs[i].block <= logs[j].block && (logs[i].block == logs[j].block ==> logs[i].index < logs[j].index)
  {
  }

  function Between(logs: seq<Log>, first: int, last: int): seq<Log> {
    if logs == [] then []
    else
      var rest := Between(logs[..|logs| - 1], first, last);
      var l := logs[|logs| - 1];
      if first <= l.block <= last then rest + [l] else rest
  }

  lemma {:induction false} BetweenIs(logs: seq<Log>, first: int, last: int)
    ensures forall l :: l in Between(logs, first, last) <==> l in logs && first <= l.block <= last
  {
    if logs != [] {
      BetweenIs(logs[..|logs| - 1], first, last);
      assert logs == logs[..|logs| - 1] + [logs[|logs| - 1]];
    }
  }

  lemma {:induction false} BetweenInOrder(logs: seq<Log>, first: int, last: int)
    requires InOrder(logs)
    ensures InOrder(Between(logs, first, last))
  {
    if logs != [] {
      var n := |logs| - 1;
      BetweenInOrder(logs[..n], first, last);
      BetweenIs(logs[..n], first, last);
      forall l | l in Between(logs[..n], first, last) ensures Before(l, logs[n]) {
        var i :| 0 <= i < n && logs[..n][i] == l;
      }
    }
  }

  // A window more, counted as multisets: an RPC may answer a window in any order.
  lemma {:induction false} BetweenSplits(logs: seq<Log>, first: int, mid: int, last: int)
    requires first <= mid <= last + 1
    ensures multiset(Between(logs, first, last)) ==
              multiset(Between(logs, first, mid - 1)) + multiset(Between(logs, mid, last))
  {
    if logs != [] {
      BetweenSplits(logs[..|logs| - 1], first, mid, last);
    }
  }

  // Insertion into an ordered list, and the sort it makes.
  function Insert(l: Log, logs: seq<Log>): seq<Log> {
    if logs == [] then [l]
    else if Before(l, logs[0]) then [l] + logs
    else [logs[0]] + Insert(l, logs[1..])
  }

  function Sorted(logs: seq<Log>): seq<Log> {
    if logs == [] then [] else Insert(logs[0], Sorted(logs[1..]))
  }

  lemma {:induction false} InsertKeepsAll(l: Log, logs: seq<Log>)
    ensures multiset(Insert(l, logs)) == multiset(logs) + multiset{l}
  {
    if logs != [] {
      assert logs == [logs[0]] + logs[1..];
      if !Before(l, logs[0]) { InsertKeepsAll(l, logs[1..]); }
    }
  }

  lemma {:induction false} InsertKeeps(l: Log, logs: seq<Log>)
    requires InOrder(logs) && (forall x <- logs :: Before(x, l) || Before(l, x))
    ensures InOrder(Insert(l, logs))
  {
    if logs != [] && !Before(l, logs[0]) {
      var rest := Insert(l, logs[1..]);
      InsertKeeps(l, logs[1..]);
      InsertKeepsAll(l, logs[1..]);
      forall i | 0 <= i < |rest| ensures Before(logs[0], rest[i]) {
        assert rest[i] in multiset(rest);
        assert rest[i] in logs[1..] || rest[i] == l;
      }
    }
  }

  // Logs at distinct positions come out of the sort in order, all of them.
  ghost predicate Apart(logs: seq<Log>) {
    forall i, j :: 0 <= i < j < |logs| ==> Before(logs[i], logs[j]) || Before(logs[j], logs[i])
  }

  lemma {:induction false} SortedSorts(logs: seq<Log>)
    requires Apart(logs)
    ensures InOrder(Sorted(logs)) && multiset(Sorted(logs)) == multiset(logs)
  {
    if logs != [] {
      assert logs == [logs[0]] + logs[1..];
      SortedSorts(logs[1..]);
      forall x <- Sorted(logs[1..]) ensures Before(x, logs[0]) || Before(logs[0], x) {
        assert x in multiset(logs[1..]);
        var j :| 0 <= j < |logs[1..]| && logs[1..][j] == x;
        assert logs[j + 1] == x;
      }
      InsertKeeps(logs[0], Sorted(logs[1..]));
      InsertKeepsAll(logs[0], Sorted(logs[1..]));
    }
  }

  lemma HeadComesFirst(logs: seq<Log>, x: Log)
    requires InOrder(logs) && x in multiset(logs)
    ensures logs != [] && (x == logs[0] || Before(logs[0], x))
  {
  }

  lemma TailOf(logs: seq<Log>)
    requires logs != []
    ensures multiset(logs[1..]) == multiset(logs) - multiset{logs[0]} && logs[0] in multiset(logs)
    ensures InOrder(logs) ==> InOrder(logs[1..])
    ensures logs == [logs[0]] + logs[1..]
  {
    assert logs == [logs[0]] + logs[1..];
  }

  // Two ordered lists of the same logs are the same list.
  lemma {:induction false} OrderIsUnique(a: seq<Log>, b: seq<Log>)
    requires InOrder(a) && InOrder(b) && multiset(a) == multiset(b)
    ensures a == b
  {
    hide InOrder;
    assert |multiset(a)| == |a| && |multiset(b)| == |b|;
    if a != [] {
      TailOf(a);
      TailOf(b);
      HeadComesFirst(a, b[0]);
      HeadComesFirst(b, a[0]);
      OrderIsUnique(a[1..], b[1..]);
    }
  }

  lemma {:induction false} AtMostOnce(logs: seq<Log>, x: Log)
    requires InOrder(logs)
    ensures multiset(logs)[x] <= 1
  {
    if logs != [] {
      AtMostOnce(logs[1..], x);
      assert logs == [logs[0]] + logs[1..];
      assert logs[0] !in logs[1..];
    }
  }

  // Any arrangement of an ordered list has its logs at distinct positions.
  lemma ArrangedApart(ordered: seq<Log>, logs: seq<Log>)
    requires InOrder(ordered) && multiset(logs) == multiset(ordered)
    ensures Apart(logs)
  {
    forall i, j | 0 <= i < j < |logs| ensures Before(logs[i], logs[j]) || Before(logs[j], logs[i]) {
      assert logs == logs[..i] + [logs[i]] + logs[i + 1..j] + [logs[j]] + logs[j + 1..];
      AtMostOnce(ordered, logs[i]);
      assert logs[i] in multiset(ordered) && logs[j] in multiset(ordered);
    }
  }

  lemma {:induction false} EmptyRange(logs: seq<Log>, first: int, last: int)
    requires last < first
    ensures Between(logs, first, last) == []
  {
    if logs != [] { EmptyRange(logs[..|logs| - 1], first, last); }
  }

  // The whole range, walked in windows of any size from one block up and answered window by window in whatever
  // order, comes back as exactly the chain's logs of the range in chain order.
  method ScanLogs(chain: seq<Log>, answer: (int, int) -> seq<Log>, first: int, last: int, chunk: int)
    returns (logs: seq<Log>)
    requires chunk >= 1 && InOrder(chain)
    requires forall f, t {:trigger answer(f, t)} :: multiset(answer(f, t)) == multiset(Between(chain, f, t))
    ensures logs == Between(chain, first, last)
  {
    logs := [];
    var at := first;
    ghost var covered := first - 1;
    EmptyRange(chain, first, covered);
    while at <= last
      invariant first - 1 <= covered && (covered == at - 1 || covered == last < at)
      invariant at == first || covered <= last
      invariant multiset(logs) == multiset(Between(chain, first, covered))
      decreases last - at
    {
      var upTo := if at + chunk - 1 <= last then at + chunk - 1 else last;
      BetweenSplits(chain, first, at, upTo);
      logs := logs + answer(at, upTo);
      covered := upTo;
      at := at + chunk;
    }
    if last < first { EmptyRange(chain, first, last); }
    BetweenInOrder(chain, first, last);
    ArrangedApart(Between(chain, first, last), logs);
    SortedSorts(logs);
    OrderIsUnique(Sorted(logs), Between(chain, first, last));
    logs := Sorted(logs);
  }

  // ---------------------------------------------------------------- the contract's own history

  // The admins and accepted tokens after a history, each change having left its event.
  function AdminsAfter(es: seq<Event>): set<Addr> {
    if es == [] then {}
    else
      var s := AdminsAfter(es[..|es| - 1]);
      match es[|es| - 1]
      case AdminAdded(a) => s + {a}
      case AdminRemoved(a) => s - {a}
      case _ => s
  }

  function TokensAfter(es: seq<Event>): set<Addr> {
    if es == [] then {}
    else
      var s := TokensAfter(es[..|es| - 1]);
      match es[|es| - 1]
      case TokenAcceptanceUpdated(t, on) => if on then s + {t} else s - {t}
      case _ => s
  }

  function OwnerAfter(es: seq<Event>): Addr {
    if es == [] then ZERO
    else if es[|es| - 1].OwnershipTransferred? then es[|es| - 1].next
    else OwnerAfter(es[..|es| - 1])
  }

  // What the contract can emit next: an admin is added only when absent and removed only when present, and a transfer
  // is from the owner of the moment.
  predicate CanFollow(es: seq<Event>, e: Event) {
    match e
    case AdminAdded(a) => a !in AdminsAfter(es)
    case AdminRemoved(a) => a in AdminsAfter(es)
    case OwnershipTransferred(p, _) => p == OwnerAfter(es)
    case _ => true
  }

  ghost predicate Genuine(es: seq<Event>) { forall n :: 0 <= n < |es| ==> CanFollow(es[..n], es[n]) }

  // ---------------------------------------------------------------- the replay

  datatype Transfer = Transfer(prev: Addr, next: Addr)

  function Transfers(es: seq<Event>): seq<Transfer> {
    if es == [] then []
    else
      var rest := Transfers(es[..|es| - 1]);
      match es[|es| - 1]
      case OwnershipTransferred(p, n) => rest + [Transfer(p, n)]
      case _ => rest
  }

  // The loop over the escrow's logs: the sets it keeps, the ownership chain, and the first kind of mismatch.
  method Replay(es: seq<Event>) returns (admins: set<Addr>, accepted: set<Addr>, owners: seq<Transfer>, bad: nat)
    ensures admins == AdminsAfter(es) && accepted == TokensAfter(es) && owners == Transfers(es)
    ensures bad == 0 <==> forall n :: 0 <= n < |es| && es[n].AdminRemoved? ==> es[n].account in AdminsAfter(es[..n])
  {
    admins, accepted, owners, bad := {}, {}, [], 0;
    for i := 0 to |es|
      invariant admins == AdminsAfter(es[..i]) && accepted == TokensAfter(es[..i]) && owners == Transfers(es[..i])
      invariant bad == 0 <==> forall n :: 0 <= n < i && es[n].AdminRemoved? ==> es[n].account in AdminsAfter(es[..n])
    {
      assert es[..i + 1][..i] == es[..i];
      match es[i]
      case AdminAdded(a) => admins := admins + {a};
      case AdminRemoved(a) =>
        if a !in admins { bad := bad + 1; }
        admins := admins - {a};
      case TokenAcceptanceUpdated(t, on) => accepted := if on then accepted + {t} else accepted - {t};
      case OwnershipTransferred(p, n) => owners := owners + [Transfer(p, n)];
    }
    assert es[..|es|] == es;
  }

  // The ownership chain reads right: from zero, each from the owner before it, to the owner of now.
  predicate ChainOk(ts: seq<Transfer>, current: Addr) {
    ts != [] && ts[0].prev == ZERO && ts[|ts| - 1].next == current &&
    forall i :: 0 < i < |ts| ==> ts[i].prev == ts[i - 1].next
  }

  method CheckChain(ts: seq<Transfer>, current: Addr) returns (bad: nat)
    ensures bad == 0 <==> ChainOk(ts, current)
  {
    if ts == [] || ts[0].prev != ZERO { return 1; }
    bad := 0;
    for i := 1 to |ts|
      invariant bad == 0 <==> forall j :: 0 < j < i ==> ts[j].prev == ts[j - 1].next
    {
      if ts[i].prev != ts[i - 1].next { bad := bad + 1; }
    }
    if ts[|ts| - 1].next != current { bad := bad + 1; }
  }

  // Every check on the event history passes, for the owner read and what is expected.
  ghost predicate NoMismatch(es: seq<Event>, owner: Addr, arbiters: set<Addr>, tokens: set<Addr>) {
    && AdminsAfter(es) == arbiters && TokensAfter(es) == tokens && ChainOk(Transfers(es), owner)
    && (exists n :: 0 <= n < |es| && es[n].AdminAdded?)
    && (forall n :: 0 <= n < |es| && es[n].AdminRemoved? ==> es[n].account in AdminsAfter(es[..n]))
  }

  method VerifyHistory(es: seq<Event>, owner: Addr, arbiters: set<Addr>, tokens: set<Addr>) returns (mismatches: nat)
    ensures mismatches == 0 <==> NoMismatch(es, owner, arbiters, tokens)
  {
    var admins, accepted, owners, bad := Replay(es);
    var chainBad := CheckChain(owners, owner);
    mismatches := bad + chainBad;
    if !(exists n :: 0 <= n < |es| && es[n].AdminAdded?) { mismatches := mismatches + 1; }
    if admins != arbiters { mismatches := mismatches + 1; }
    if accepted != tokens { mismatches := mismatches + 1; }
  }

  // Over a genuine and complete history no mismatch means exactly: the contract's admins are the arbiters, its
  // accepted tokens are the plan's, and it has an owner, the one that was read. No other check ever fires.
  lemma CleanMeansExact(es: seq<Event>, owner: Addr, arbiters: set<Addr>, tokens: set<Addr>)
    requires Genuine(es) && arbiters != {}
    ensures NoMismatch(es, owner, arbiters, tokens) <==>
              AdminsAfter(es) == arbiters && TokensAfter(es) == tokens && owner == OwnerAfter(es) &&
              exists n :: 0 <= n < |es| && es[n].OwnershipTransferred?
  {
    GenuineChain(es);
    if AdminsAfter(es) != {} { SomeAdded(es); }
    if exists n :: 0 <= n < |es| && es[n].OwnershipTransferred? {
      var n :| 0 <= n < |es| && es[n].OwnershipTransferred?;
      SomeTransfer(es, n);
    } else {
      NoTransfers(es);
    }
  }

  lemma {:induction false} SomeAdded(es: seq<Event>)
    requires AdminsAfter(es) != {}
    ensures exists n :: 0 <= n < |es| && es[n].AdminAdded?
  {
    var n := |es| - 1;
    if !es[n].AdminAdded? {
      SomeAdded(es[..n]);
      var m :| 0 <= m < n && es[..n][m].AdminAdded?;
      assert es[m].AdminAdded?;
    }
  }

  lemma {:induction false} GenuineChain(es: seq<Event>)
    requires Genuine(es)
    ensures Transfers(es) != [] ==> ChainOk(Transfers(es), OwnerAfter(es))
    ensures Transfers(es) == [] ==> OwnerAfter(es) == ZERO
  {
    if es != [] {
      var was := es[..|es| - 1];
      forall n | 0 <= n < |was| ensures was[n] == es[n] && was[..n] == es[..n] {}
      GenuineChain(was);
    }
  }

  lemma {:induction false} SomeTransfer(es: seq<Event>, n: nat)
    requires n < |es| && es[n].OwnershipTransferred?
    ensures Transfers(es) != []
  {
    if n < |es| - 1 { SomeTransfer(es[..|es| - 1], n); }
  }

  lemma {:induction false} NoTransfers(es: seq<Event>)
    requires forall n :: 0 <= n < |es| ==> !es[n].OwnershipTransferred?
    ensures Transfers(es) == []
  {
    if es != [] { NoTransfers(es[..|es| - 1]); }
  }

  // ---------------------------------------------------------------- missing logs

  // A true ownership history: from zero, each transfer from the owner before it.
  predicate TrueChain(ts: seq<Transfer>) {
    forall i :: 0 <= i < |ts| ==> ts[i].prev == OwnerAt(ts, i)
  }

  function OwnerAt(ts: seq<Transfer>, i: nat): Addr
    requires i <= |ts|
  {
    if i == 0 then ZERO else ts[i - 1].next
  }

  // A stretch of transfers the RPC drops goes unnoticed exactly when something is left and ownership was, after
  // the stretch, back with the owner before it.
  lemma DroppedStretch(ts: seq<Transfer>, i: nat, j: nat)
    requires TrueChain(ts) && i <= j <= |ts|
    ensures ChainOk(ts[..i] + ts[j..], OwnerAt(ts, |ts|)) <==> (i > 0 || j < |ts|) && OwnerAt(ts, i) == OwnerAt(ts, j)
  {
    var left := ts[..i] + ts[j..];
    assert |left| == |ts| - (j - i);
    forall k | 0 < k < |left| && k != i ensures left[k].prev == left[k - 1].next {
      if k < i { assert left[k] == ts[k] && left[k - 1] == ts[k - 1]; }
      else { assert left[k] == ts[k + (j - i)] && left[k - 1] == ts[k - 1 + (j - i)]; }
    }
    if i > 0 { assert left[0] == ts[0] && left[i - 1] == ts[i - 1]; }
    if j < |ts| { assert left[i] == ts[j] && left[|left| - 1] == ts[|ts| - 1]; }
    if i > 0 && j < |ts| { assert left[i].prev == OwnerAt(ts, j) && left[i - 1].next == OwnerAt(ts, i); }
  }

  // So dropping any single transfer but one to oneself is always reported.
  lemma DroppedTransferIsReported(ts: seq<Transfer>, i: nat)
    requires TrueChain(ts) && i < |ts| && ts[i].prev != ts[i].next
    ensures !ChainOk(ts[..i] + ts[i + 1..], OwnerAt(ts, |ts|))
  {
    DroppedStretch(ts, i, i + 1);
  }

  function Without(es: seq<Event>, n: nat): seq<Event>
    requires n < |es|
  {
    es[..n] + es[n + 1..]
  }

  predicate IsAbout(e: Event, a: Addr) { (e.AdminAdded? || e.AdminRemoved?) && e.account == a }

  // The event at n is the only one about its admin.
  ghost predicate OnlyEventOf(es: seq<Event>, n: nat) {
    n < |es| && es[n].AdminAdded? && forall m :: 0 <= m < |es| && m != n ==> !IsAbout(es[m], es[n].account)
  }

  lemma {:induction false} NotMentioned(es: seq<Event>, a: Addr)
    requires forall e <- es :: !IsAbout(e, a)
    ensures a !in AdminsAfter(es)
  {
    if es != [] {
      NotMentioned(es[..|es| - 1], a);
      assert es[|es| - 1] in es;
    }
  }

  lemma {:induction false} ReplayWithout(es: seq<Event>, n: nat)
    requires OnlyEventOf(es, n)
    ensures AdminsAfter(Without(es, n)) == AdminsAfter(es) - {es[n].account}
    ensures TokensAfter(Without(es, n)) == TokensAfter(es) && Transfers(Without(es, n)) == Transfers(es)
    decreases |es|
  {
    var k, left := |es| - 1, Without(es, n);
    if n == k {
      assert left == es[..k];
      NotMentioned(es[..k], es[n].account);
    } else {
      ReplayWithout(es[..k], n);
      assert left[..|left| - 1] == Without(es[..k], n) && left[|left| - 1] == es[k];
      assert !IsAbout(es[k], es[n].account) && es[..k][n] == es[n];
    }
  }

  lemma RemovalsWithout(es: seq<Event>, n: nat)
    requires Genuine(es) && OnlyEventOf(es, n)
    ensures var left := Without(es, n);
            forall m :: 0 <= m < |left| && left[m].AdminRemoved? ==> left[m].account in AdminsAfter(left[..m])
  {
    var left := Without(es, n);
    forall m | 0 <= m < |left| && left[m].AdminRemoved? ensures left[m].account in AdminsAfter(left[..m]) {
      if m < n {
        assert left[..m] == es[..m] && left[m] == es[m];
      } else {
        assert left[m] == es[m + 1] && left[..m] == Without(es[..m + 1], n);
        assert left[m].account in AdminsAfter(es[..m + 1]) && !IsAbout(es[m + 1], es[n].account);
        ReplayWithout(es[..m + 1], n);
      }
    }
  }

  // An admin whose one event is dropped goes unnoticed exactly when everybody else is right: with the admin besides
  // the arbiters every check passes, so the admin check rests on complete logs.
  lemma DroppedAdminGoesUnnoticed(es: seq<Event>, n: nat, owner: Addr, arbiters: set<Addr>, tokens: set<Addr>)
    requires Genuine(es) && OnlyEventOf(es, n) && arbiters != {}
    ensures NoMismatch(Without(es, n), owner, arbiters, tokens) <==>
              AdminsAfter(es) - {es[n].account} == arbiters && TokensAfter(es) == tokens && owner == OwnerAfter(es) &&
              exists m :: 0 <= m < |es| && es[m].OwnershipTransferred?
  {
    ReplayWithout(es, n);
    RemovalsWithout(es, n);
    GenuineChain(es);
    if AdminsAfter(Without(es, n)) != {} { SomeAdded(Without(es, n)); }
    if exists m :: 0 <= m < |es| && es[m].OwnershipTransferred? {
      var m :| 0 <= m < |es| && es[m].OwnershipTransferred?;
      SomeTransfer(es, m);
    } else {
      NoTransfers(es);
    }
  }
}
