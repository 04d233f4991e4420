// Wiring an escrow (smart-contracts/deploy/p2p-escrow.js) and handing contracts over (smart-contracts/deploy/lib.js).
module Wire {
  import opened Common
  import opened Escrow

  // One entry of the chain's token table; the source skips an entry without an address.
  datatype Token = Token(sym: Symbol, addr: Option<Addr>)

  datatype Config = Config(systemWallet: Addr, tokens: seq<Token>, permit2: Option<Addr>, forwarder: Option<Addr>,
                           feeManager: Option<Addr>)

  const MCGP: Symbol := "MCGP"

  function AddrOf(tokens: seq<Token>, sym: Symbol): Option<Addr> {
    if tokens == [] then None
    else if tokens[|tokens| - 1].sym == sym then tokens[|tokens| - 1].addr
    else AddrOf(tokens[..|tokens| - 1], sym)
  }

  // Symbols are keys of one table, no two of them share an address, and no address is zero.
  predicate GoodTokens(tokens: seq<Token>) {
    && (forall i, j :: 0 <= i < j < |tokens| ==> tokens[i].sym != tokens[j].sym)
    && (forall i, j :: 0 <= i < j < |tokens| && tokens[i].addr.Some? ==> tokens[i].addr != tokens[j].addr)
    && (forall t <- tokens :: t.addr != Some(ZERO))
  }

  predicate Good(c: Config) {
    c.systemWallet != ZERO && GoodTokens(c.tokens) && c.feeManager != Some(ZERO)
  }

  // Every value the configuration names is set. `tokens` and the rest are as they would be read back.
  predicate TokensSet(v: Values, tokens: seq<Token>) {
    forall t <- tokens :: t.addr.Some? ==> t.addr.value in v.accepted && SymbolOf(v, t.addr.value) == t.sym
  }

  function Same(o: Option<Addr>, v: Addr): bool { o.None? || o.value == v }

  predicate SetButFeeManager(v: Values, c: Config) {
    && v.systemWallet == c.systemWallet && TokensSet(v, c.tokens)
    && Same(AddrOf(c.tokens, MCGP), v.mcgpToken) && Same(c.permit2, v.permit2) && Same(c.forwarder, v.forwarder)
  }

  predicate AllSet(v: Values, c: Config) { SetButFeeManager(v, c) && Same(c.feeManager, v.feeManager) }

  // How many values differ from the configuration.
  function One(differs: bool): nat { if differs then 1 else 0 }

  function TokenToSend(v: Values, t: Token): nat {
    if t.addr.None? then 0 else One(t.addr.value !in v.accepted) + One(SymbolOf(v, t.addr.value) != t.sym)
  }

  function TokensToSend(v: Values, tokens: seq<Token>): nat {
    if tokens == [] then 0
    else TokensToSend(v, tokens[..|tokens| - 1]) + TokenToSend(v, tokens[|tokens| - 1])
  }

  function AddressesToSend(v: Values, c: Config): nat {
    One(!Same(AddrOf(c.tokens, MCGP), v.mcgpToken)) + One(!Same(c.permit2, v.permit2)) +
    One(!Same(c.forwarder, v.forwarder))
  }

  function ValuesToSend(v: Values, c: Config): nat {
    One(v.systemWallet != c.systemWallet) + TokensToSend(v, c.tokens) + AddressesToSend(v, c)
  }

  function ToSend(v: Values, c: Config): nat { ValuesToSend(v, c) + One(!Same(c.feeManager, v.feeManager)) }

  // Nothing differs exactly when everything is set.
  lemma {:induction false} NoTokensToSend(v: Values, tokens: seq<Token>)
    ensures TokensToSend(v, tokens) == 0 <==> TokensSet(v, tokens)
  {
    if tokens != [] {
      NoTokensToSend(v, tokens[..|tokens| - 1]);
      assert tokens == tokens[..|tokens| - 1] + [tokens[|tokens| - 1]];
    }
  }

  lemma NothingToSend(v: Values, c: Config)
    ensures ToSend(v, c) == 0 <==> AllSet(v, c)
  {
    NoTokensToSend(v, c.tokens);
  }

  // What "set" means, value by value: MCGP, Permit2, the forwarder and the fee manager only where configured.
  lemma AllSetMeans(v: Values, c: Config)
    requires GoodTokens(c.tokens)
    ensures AllSet(v, c) <==>
              v.systemWallet == c.systemWallet && (c.permit2.Some? ==> v.permit2 == c.permit2.value) &&
              (c.forwarder.Some? ==> v.forwarder == c.forwarder.value) &&
              (c.feeManager.Some? ==> v.feeManager == c.feeManager.value) &&
              (forall t <- c.tokens :: t.sym == "MCGP" && t.addr.Some? ==> v.mcgpToken == t.addr.value) &&
              (forall t <- c.tokens :: t.addr.Some? ==> t.addr.value in v.accepted) &&
              (forall t <- c.tokens :: t.addr.Some? ==>
                 (if t.addr.value in v.symbol then v.symbol[t.addr.value] else "") == t.sym)
  {
    hide GoodTokens;
    McgpIsListed(c.tokens, MCGP);
    forall t <- c.tokens | t.sym == "MCGP" ensures AddrOf(c.tokens, MCGP) == t.addr { AddrIsListed(c.tokens, t); }
    if AddrOf(c.tokens, MCGP).Some? { McgpEntry(c.tokens); }
  }

  lemma {:induction false} McgpEntry(tokens: seq<Token>)
    requires AddrOf(tokens, MCGP).Some?
    ensures exists t <- tokens :: t.sym == "MCGP" && t.addr == AddrOf(tokens, MCGP)
  {
    if tokens[|tokens| - 1].sym != MCGP {
      McgpEntry(tokens[..|tokens| - 1]);
      var t :| t in tokens[..|tokens| - 1] && t.sym == "MCGP" && t.addr == AddrOf(tokens, MCGP);
      assert t in tokens;
    }
  }

  // A symbol's address is its entry's, wherever in the table it stands.
  lemma {:induction false} AddrIsListed(tokens: seq<Token>, t: Token)
    requires GoodTokens(tokens)
    ensures t in tokens ==> AddrOf(tokens, t.sym) == t.addr
    ensures (forall u <- tokens :: u.sym != t.sym) ==> AddrOf(tokens, t.sym) == None
  {
    if tokens != [] {
      var n := |tokens| - 1;
      AddrIsListed(tokens[..n], t);
      assert tokens[n] in tokens && tokens == tokens[..n] + [tokens[n]];
      if t in tokens[..n] {
        var i :| 0 <= i < n && tokens[i] == t;
      }
    }
  }

  // The tokens table reads only what is accepted and the symbols.
  lemma {:induction false} TokensToSendReads(v: Values, w: Values, tokens: seq<Token>)
    requires forall t <- tokens :: t.addr.Some? ==>
               (t.addr.value in v.accepted <==> t.addr.value in w.accepted) &&
                   SymbolOf(v, t.addr.value) == SymbolOf(w, t.addr.value)
    ensures TokensToSend(v, tokens) == TokensToSend(w, tokens)
  {
    if tokens != [] {
      TokensToSendReads(v, w, tokens[..|tokens| - 1]);
      assert tokens[|tokens| - 1] in tokens;
    }
  }

  lemma {:induction false} McgpIsListed(tokens: seq<Token>, sym: Symbol)
    ensures AddrOf(tokens, sym).Some? ==> exists t <- tokens :: t.addr == AddrOf(tokens, sym)
  {
    if tokens != [] && tokens[|tokens| - 1].sym != sym {
      McgpIsListed(tokens[..|tokens| - 1], sym);
    }
  }

  // Sends one setter unless the process dies first; `fuse` is how many transactions it lives to send.
  method Try(esc: P2PEscrow, signer: Addr, differs: bool, s: Setter, fuse: nat) returns (left: nat, alive: bool)
    requires signer == esc.owner && (differs ==> Takes(esc.values, s))
    modifies esc`values, esc`sent
    ensures alive <==> !differs || fuse > 0
    ensures esc.values == if differs && alive then Apply(old(esc.values), s) else old(esc.values)
    ensures esc.sent == old(esc.sent) + One(differs && alive) && left == fuse - One(differs && alive)
  {
    left, alive := fuse, true;
    if differs {
      if fuse == 0 { return 0, false; }
      var _ := esc.Send(signer, s);
      left := fuse - 1;
    }
  }

  // What wiring may touch on the way: the fee manager only once everything else is set, and nothing outside the
  // configuration ever.
  ghost predicate OnlyConfigured(v0: Values, v: Values, c: Config) {
    && v.feeBps == v0.feeBps && v.paymentWindow == v0.paymentWindow && v.paused == v0.paused && v.admins == v0.admins
    && v0.accepted <= v.accepted
    && (forall a <- v.accepted :: a in v0.accepted || exists t <- c.tokens :: t.addr == Some(a))
    && v.systemWallet in {v0.systemWallet, c.systemWallet}
    && (v.mcgpToken == v0.mcgpToken || AddrOf(c.tokens, MCGP) == Some(v.mcgpToken))
    && (v.permit2 == v0.permit2 || c.permit2 == Some(v.permit2))
    && (v.forwarder == v0.forwarder || c.forwarder == Some(v.forwarder))
  }

  ghost predicate FeeManagerLast(v0: Values, v: Values, c: Config) {
    v.feeManager == v0.feeManager || (c.feeManager == Some(v.feeManager) && SetButFeeManager(v, c))
  }

  method WireToken(esc: P2PEscrow, signer: Addr, t: Token, fuse: nat) returns (left: nat, alive: bool)
    requires signer == esc.owner && t.addr != Some(ZERO)
    modifies esc`values, esc`sent
    ensures var v0, v := old(esc.values), esc.values;
            v == v0.(accepted := v.accepted, symbol := v.symbol) && OnlyToken(v0, v, t)
    ensures alive <==> TokenToSend(old(esc.values), t) <= fuse
    ensures alive ==> TokensSet(esc.values, [t]) && esc.sent == old(esc.sent) + TokenToSend(old(esc.values), t)
    ensures left == fuse - (esc.sent - old(esc.sent)) && (!alive ==> left == 0)
    ensures TokenToSend(esc.values, t) + (esc.sent - old(esc.sent)) == TokenToSend(old(esc.values), t)
  {
    left, alive := fuse, true;
    if t.addr.Some? {
      left, alive := Try(esc, signer, t.addr.value !in esc.values.accepted, SetTokenAcceptance(t.addr.value), left);
      if !alive { return; }
      left, alive := Try(esc, signer, SymbolOf(esc.values, t.addr.value) != t.sym,
          SetTokenSymbol(t.addr.value, t.sym), left);
    }
  }

  // Acceptance is only ever added, for this token, and only its symbol changes.
  ghost predicate OnlyToken(v0: Values, v: Values, t: Token) {
    && v0.accepted <= v.accepted && (forall a <- v.accepted :: a in v0.accepted || t.addr == Some(a))
    && (forall a: Addr :: t.addr != Some(a) ==> SymbolOf(v, a) == SymbolOf(v0, a))
  }

  // After the first i tokens of the table.
  ghost predicate WiredUpTo(v0: Values, v: Values, tokens: seq<Token>, i: nat)
    requires i <= |tokens|
  {
    && v0.accepted <= v.accepted
    && (forall a <- v.accepted :: a in v0.accepted || exists t <- tokens :: t.addr == Some(a))
    && TokensSet(v, tokens[..i])
    && forall j :: i <= j < |tokens| ==> Untouched(v0, v, tokens[j])
  }

  ghost predicate Untouched(v0: Values, v: Values, t: Token) {
    t.addr.Some? ==> (t.addr.value in v.accepted <==> t.addr.value in v0.accepted) &&
                     SymbolOf(v, t.addr.value) == SymbolOf(v0, t.addr.value)
  }

  lemma WiredOneMore(v0: Values, v: Values, v': Values, tokens: seq<Token>, i: nat)
    requires GoodTokens(tokens) && i < |tokens| && WiredUpTo(v0, v, tokens, i) && OnlyToken(v, v', tokens[i])
    ensures TokensSet(v', [tokens[i]]) ==> WiredUpTo(v0, v', tokens, i + 1)
    ensures v0.accepted <= v'.accepted
    ensures forall a <- v'.accepted :: a in v0.accepted || exists t <- tokens :: t.addr == Some(a)
  {
  }

  // What a token's own transactions take off the count, the whole table's count loses, and nothing else.
  lemma {:induction false} OneTokenDone(v: Values, v': Values, tokens: seq<Token>, i: nat)
    requires GoodTokens(tokens) && i < |tokens| && OnlyToken(v, v', tokens[i])
    ensures TokensToSend(v', tokens) - TokensToSend(v, tokens) == TokenToSend(v', tokens[i]) - TokenToSend(v, tokens[i])
    decreases |tokens|
  {
    var n := |tokens| - 1;
    if i < n {
      OneTokenDone(v, v', tokens[..n], i);
      assert tokens[i].addr.Some? ==> tokens[n].addr != tokens[i].addr;
    } else {
      TokensToSendReads(v, v', tokens[..n]);
    }
  }

  method WireTokens(esc: P2PEscrow, signer: Addr, tokens: seq<Token>, fuse: nat) returns (left: nat, alive: bool)
    requires signer == esc.owner && GoodTokens(tokens)
    modifies esc`values, esc`sent
    ensures esc.values == old(esc.values).(accepted := esc.values.accepted, symbol := esc.values.symbol)
    ensures old(esc.values).accepted <= esc.values.accepted
    ensures forall a <- esc.values.accepted :: a in old(esc.values).accepted || exists t <- tokens :: t.addr == Some(a)
    ensures alive <==> TokensToSend(old(esc.values), tokens) <= fuse
    ensures alive ==> TokensSet(esc.values, tokens) && esc.sent == old(esc.sent) + TokensToSend(old(esc.values), tokens)
    ensures left == fuse - (esc.sent - old(esc.sent)) && (!alive ==> left == 0)
    ensures TokensToSend(esc.values, tokens) + (esc.sent - old(esc.sent)) == TokensToSend(old(esc.values), tokens)
  {
    left, alive := fuse, true;
    ghost var v0 := esc.values;
    for i := 0 to |tokens|
      invariant alive && esc.values == v0.(accepted := esc.values.accepted, symbol := esc.values.symbol)
      invariant WiredUpTo(v0, esc.values, tokens, i)
      invariant esc.sent == old(esc.sent) + TokensToSend(v0, tokens[..i])
      invariant left == fuse - TokensToSend(v0, tokens[..i])
      invariant TokensToSend(esc.values, tokens) + (esc.sent - old(esc.sent)) == TokensToSend(v0, tokens)
    {
      ghost var v := esc.values;
      assert tokens[i] in tokens && Untouched(v0, v, tokens[i]) && tokens[..i + 1][..i] == tokens[..i];
      TokensMonotone(v0, tokens, i + 1);
      left, alive := WireToken(esc, signer, tokens[i], left);
      WiredOneMore(v0, v, esc.values, tokens, i);
      OneTokenDone(v, esc.values, tokens, i);
      if !alive { return; }
    }
    assert tokens[..|tokens|] == tokens;
  }

  lemma {:induction false} TokensMonotone(v: Values, tokens: seq<Token>, i: nat)
    requires i <= |tokens|
    ensures TokensToSend(v, tokens[..i]) <= TokensToSend(v, tokens)
    decreases |tokens|
  {
    if i < |tokens| {
      TokensMonotone(v, tokens[..|tokens| - 1], i);
      assert tokens[..|tokens| - 1][..i] == tokens[..i];
    } else {
      assert tokens[..i] == tokens;
    }
  }

  // The MCGP, Permit2 and forwarder addresses, each only when configured and different.
  method WireAddresses(esc: P2PEscrow, signer: Addr, c: Config, fuse: nat) returns (left: nat, alive: bool)
    requires signer == esc.owner && Good(c) && TokensSet(esc.values, c.tokens)
    modifies esc`values, esc`sent
    ensures alive <==> AddressesToSend(old(esc.values), c) <= fuse
    ensures left == fuse - (esc.sent - old(esc.sent)) && (!alive ==> left == 0)
    ensures alive ==> esc.sent == old(esc.sent) + AddressesToSend(old(esc.values), c)
    ensures var v0, v := old(esc.values), esc.values;
            v == v0.(mcgpToken := v.mcgpToken, permit2 := v.permit2, forwarder := v.forwarder) &&
            (v.mcgpToken == v0.mcgpToken || AddrOf(c.tokens, MCGP) == Some(v.mcgpToken)) &&
            (v.permit2 == v0.permit2 || c.permit2 == Some(v.permit2)) &&
            (v.forwarder == v0.forwarder || c.forwarder == Some(v.forwarder))
    ensures AddressesToSend(esc.values, c) + (esc.sent - old(esc.sent)) == AddressesToSend(old(esc.values), c)
  {
    var mcgp := AddrOf(c.tokens, MCGP);
    McgpIsListed(c.tokens, MCGP);
    left, alive := fuse, true;
    if mcgp.Some? {
      left, alive := Try(esc, signer, esc.values.mcgpToken != mcgp.value, SetMcgpToken(mcgp.value), left);
      if !alive { return; }
    }
    if c.permit2.Some? {
      left, alive := Try(esc, signer, esc.values.permit2 != c.permit2.value, SetPermit2(c.permit2.value), left);
      if !alive { return; }
    }
    if c.forwarder.Some? {
      left, alive := Try(esc, signer, esc.values.forwarder != c.forwarder.value,
          SetTrustedForwarder(c.forwarder.value), left);
    }
  }

  // Everything but the fee manager.
  method WireValues(esc: P2PEscrow, signer: Addr, c: Config, fuse: nat) returns (left: nat, alive: bool)
    requires signer == esc.owner && Good(c)
    modifies esc`values, esc`sent
    ensures alive <==> ValuesToSend(old(esc.values), c) <= fuse
    ensures left == fuse - (esc.sent - old(esc.sent)) && (!alive ==> left == 0)
    ensures ValuesToSend(esc.values, c) == ValuesToSend(old(esc.values), c) - (esc.sent - old(esc.sent))
    ensures alive ==> ValuesToSend(esc.values, c) == 0
    ensures OnlyConfigured(old(esc.values), esc.values, c) && esc.values.feeManager == old(esc.values.feeManager)
  {
    hide TokensToSend, AddrOf, TokensSet, GoodTokens;
    ghost var v0 := esc.values;
    left, alive := Try(esc, signer, esc.values.systemWallet != c.systemWallet, SetSystemWallet(c.systemWallet), fuse);
    if !alive { return; }
    TokensToSendReads(v0, esc.values, c.tokens);
    left, alive := WireTokens(esc, signer, c.tokens, left);
    if !alive { return; }
    ghost var v2 := esc.values;
    left, alive := WireAddresses(esc, signer, c, left);
    TokensToSendReads(v2, esc.values, c.tokens);
  }

  // From any state of the escrow: dies with `fuse` transactions sent when more than that differ; else every value
  // is set and exactly one transaction went out per value that differed. The fee manager is set last of all.
  method WireEscrow(esc: P2PEscrow, signer: Addr, c: Config, fuse: nat) returns (left: nat, alive: bool)
    requires signer == esc.owner && Good(c)
    modifies esc`values, esc`sent
    ensures alive <==> ToSend(old(esc.values), c) <= fuse
    ensures esc.sent == old(esc.sent) + (if alive then ToSend(old(esc.values), c) else fuse)
    ensures left == fuse - (esc.sent - old(esc.sent))
    ensures ToSend(esc.values, c) == ToSend(old(esc.values), c) - (esc.sent - old(esc.sent))
    ensures alive ==> AllSet(esc.values, c)
    ensures OnlyConfigured(old(esc.values), esc.values, c) && FeeManagerLast(old(esc.values), esc.values, c)
  {
    hide TokensToSend, AddressesToSend, TokensSet, GoodTokens;
    left, alive := WireValues(esc, signer, c, fuse);
    if !alive { return; }
    if c.feeManager.Some? {
      ghost var v3 := esc.values;
      var fm := c.feeManager.value;
      left, alive := Try(esc, signer, esc.values.feeManager != fm, SetFeeManager(fm), left);
      ValuesIgnoreFeeManager(v3, esc.values, c);
    }
    NothingToSend(esc.values, c);
  }

  lemma ValuesIgnoreFeeManager(v: Values, w: Values, c: Config)
    requires w == v.(feeManager := w.feeManager)
    ensures ValuesToSend(v, c) == ValuesToSend(w, c)
  {
    TokensToSendReads(v, w, c.tokens);
  }

  // Cut anywhere and then finished, wiring sends one transaction per value that differed at the start, in all:
  // nothing already done is sent again, and once finished it sends nothing more.
  method WireAgain(esc: P2PEscrow, signer: Addr, c: Config, fuse: nat, more: nat) returns (alive: bool)
    requires signer == esc.owner && Good(c)
    modifies esc`values, esc`sent
    ensures alive <==> ToSend(old(esc.values), c) <= fuse + more
    ensures alive ==> AllSet(esc.values, c) && esc.sent == old(esc.sent) + ToSend(old(esc.values), c)
  {
    var left;
    left, alive := WireEscrow(esc, signer, c, fuse);
    left, alive := WireEscrow(esc, signer, c, more);
    if alive {
      NothingToSend(esc.values, c);
      left, alive := WireEscrow(esc, signer, c, 0);
    }
  }

  // ---------------------------------------------------------------- the handover

  datatype Handover = Done | TransferFailed | ReadBackFailed | NotAllOwned

  // How many transfers are missing.
  function Missing(owners: seq<Addr>, want: Addr): nat {
    if owners == [] then 0 else Missing(owners[..|owners| - 1], want) + One(owners[|owners| - 1] != want)
  }

  // The run stopped at contract i, missing and not to be moved now: every earlier one is the target's, and nothing
  // was sent from i on.
  ghost predicate StoppedAt(was: seq<Addr>, now: seq<Addr>, signer: Addr, want: Addr, down: nat -> bool, i: nat)
    requires |was| == |now|
  {
    && i < |was| && was[i] != want && (was[i] != signer || down(i))
    && (forall j :: 0 <= j < i ==> now[j] == want) && now[i..] == was[i..]
  }

  // `owners[i]` is contract i's owner; `down(i)` says the network fails the transfer of contract i, `dark` that
  // the read-back fails. Returns normally exactly when every owner is the target and could be read back; before
  // the first failing transfer every missing one is sent, once, and none after it.
  method HandOver(owners: array<Addr>, signer: Addr, want: Addr, down: nat -> bool, dark: bool)
    returns (r: Handover, sent: nat)
    modifies owners
    ensures r == Done ==> forall i :: 0 <= i < owners.Length ==> owners[i] == want
    ensures var was := old(owners[..]);
            var all := forall i :: 0 <= i < |was| && was[i] != want ==> was[i] == signer && !down(i);
            (r == Done <==> all && !dark) && (r == ReadBackFailed <==> all && dark) && (r == TransferFailed <==> !all)
    ensures r == ReadBackFailed ==> forall i :: 0 <= i < owners.Length ==> owners[i] == want
    ensures r == TransferFailed ==> exists i :: StoppedAt(old(owners[..]), owners[..], signer, want, down, i)
    ensures forall i :: 0 <= i < owners.Length ==>
        owners[i] == old(owners[i]) || (owners[i] == want && old(owners[i]) == signer)
    ensures sent == Missing(old(owners[..]), want) - Missing(owners[..], want)
    // The final comparison is never what fails.
    ensures r != NotAllOwned
  {
    sent := 0;
    ghost var was := owners[..];
    var i := 0;
    while i < owners.Length
      invariant 0 <= i <= owners.Length
      invariant forall j :: 0 <= j < i ==> owners[j] == want
      invariant forall j :: i <= j < owners.Length ==> owners[j] == was[j]
      invariant forall j :: 0 <= j < i ==> was[j] == want || (was[j] == signer && !down(j))
      invariant sent == Missing(was, want) - Missing(owners[..], want)
    {
      if owners[i] != want {
        if owners[i] != signer || down(i) {
          assert StoppedAt(was, owners[..], signer, want, down, i);
          return TransferFailed, sent;
        }
        ghost var before := owners[..];
        owners[i] := want;
        sent := sent + 1;
        assert owners[..] == before[i := want];
        OneLessMissing(before, i, want);
      }
      i := i + 1;
    }
    if dark { return ReadBackFailed, sent; }
    r := if exists k :: 0 <= k < owners.Length && owners[k] != want then NotAllOwned else Done;
  }

  lemma {:induction false} OneLessMissing(owners: seq<Addr>, i: nat, want: Addr)
    requires i < |owners| && owners[i] != want
    ensures Missing(owners[i := want], want) == Missing(owners, want) - 1
    decreases |owners|
  {
    var n := |owners| - 1;
    var after := owners[i := want];
    if i < n {
      OneLessMissing(owners[..n], i, want);
      assert after[..n] == owners[..n][i := want];
    } else {
      assert after[..n] == owners[..n];
    }
  }

  // Nothing missing means every owner is the target: a re-run after a full handover sends nothing.
  lemma {:induction false} NoneMissing(owners: seq<Addr>, want: Addr)
    ensures Missing(owners, want) == 0 <==> (forall i :: 0 <= i < |owners| ==> owners[i] == want)
    ensures Missing(owners, want) <= |owners|
  {
    if owners != [] {
      var n := |owners| - 1;
      NoneMissing(owners[..n], want);
      assert forall i :: 0 <= i < n ==> owners[..n][i] == owners[i];
    }
  }
}
