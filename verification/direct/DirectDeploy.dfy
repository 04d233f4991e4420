// One run of the direct escrow's deploy (smart-contracts/deploy/p2p-direct.js over
// smart-contracts/deploy/deterministic-escrow.js), which may die before any transaction, and runs after runs.
module DirectDeploy {
  import opened Common
  import opened Escrow
  import opened Wire

  const FEATURES: seq<string> := ["p2p_platform", "p2p"]

  // The expected end state: arbiters and forbidden admins, rates, tokens, window, treasury.
  datatype Plan = Plan(arbiters: set<Addr>, forbidden: set<Addr>, operator: Addr, treasury: Addr,
                       rates: map<string, Rate>, tokens: seq<Token>, otherTokens: set<Addr>, permit2: Option<Addr>,
                       window: nat)

  // What a plan has passed before a run sends anything (parseRates, pickTokens, checkConfig, validateParams).
  ghost predicate GoodPlan(p: Plan) {
    && p.arbiters != {} && p.arbiters !! p.forbidden && p.treasury != ZERO
    && p.operator in p.forbidden && p.treasury in p.forbidden
    && GoodTokens(p.tokens) && (forall t <- p.tokens :: t.addr.Some?) && AddrOf(p.tokens, MCGP) == None
    && (forall t <- p.tokens :: t.addr.value !in p.otherTokens)
    && "p2p_platform" in p.rates && "p2p" in p.rates
    && p.rates["p2p_platform"].active && p.rates["p2p"].active
    && MIN_WINDOW <= p.window <= MAX_WINDOW && p.permit2 != Some(ZERO)
  }

  function ConfigOf(p: Plan, feeManager: Option<Addr>): Config {
    Config(p.treasury, p.tokens, p.permit2, None, feeManager)
  }

  // FeeManager rows, one per token and feature.
  function RateRows(p: Plan): map<(string, Symbol), Rate>
    requires "p2p_platform" in p.rates && "p2p" in p.rates
  {
    map k | k in (set f <- FEATURES, t <- p.tokens :: (f, t.sym)) && k.0 in p.rates :: p.rates[k.0]
  }

  // ---------------------------------------------------------------- what is read back

  // deterministic-escrow's own read-back; `fm` only when the run has one.
  predicate AssertEscrow(v: Values, owner: Addr, deployer: Addr, p: Plan, fm: Option<Addr>) {
    && (forall a <- p.arbiters :: a in v.admins || a == owner)
    && p.operator !in v.admins && p.treasury !in v.admins && deployer !in v.admins
    && v.systemWallet == p.treasury && TokensSet(v, p.tokens) && Same(p.permit2, v.permit2) && Same(fm, v.feeManager)
    && v.paymentWindow == p.window
  }

  predicate IsAdmin(v: Values, owner: Addr, a: Addr, after: bool) { a in v.admins || (after && a == owner) }

  // Every token's fee rate is the plan's, for each feature.
  predicate RatesLive(rates: map<(string, Symbol), Rate>, p: Plan) {
    forall t <- p.tokens :: forall f <- FEATURES :: RateIs(rates, f, t.sym, p)
  }

  predicate RateIs(rates: map<(string, Symbol), Rate>, f: string, sym: Symbol, p: Plan) {
    (f, sym) in rates && f in p.rates && rates[(f, sym)] == p.rates[f]
  }

  // directMismatches is empty.
  predicate DirectClean(v: Values, owner: Addr, rates: map<(string, Symbol), Rate>, fm: Addr, p: Plan,
                              forbidden: set<Addr>, after: bool)
  {
    && v.feeManager == fm && v.feeBps == INIT_FEE_BPS && v.paymentWindow == p.window && v.forwarder == ZERO
    && v.permit2 == (if p.permit2.Some? then p.permit2.value else ZERO) && v.mcgpToken == ZERO && !v.paused
    && v.systemWallet == p.treasury
    && (forall a <- p.arbiters :: IsAdmin(v, owner, a, after))
    && (forall a <- forbidden :: !IsAdmin(v, owner, a, after))
    && TokensSet(v, p.tokens)
    && RatesLive(rates, p)
    && v.accepted !! p.otherTokens
  }

  // A clean read-back means every value read is the plan's own, and any single one that is not makes it unclean.
  lemma CleanMeans(v: Values, owner: Addr, rates: map<(string, Symbol), Rate>, fm: Addr, p: Plan, forbidden: set<Addr>,
                   after: bool)
    ensures DirectClean(v, owner, rates, fm, p, forbidden, after) <==>
      (v.feeManager == fm && v.feeBps == 50 && v.paymentWindow == p.window && v.forwarder == 0 && !v.paused &&
       v.mcgpToken == 0 && (if p.permit2.Some? then p.permit2 == Some(v.permit2) else v.permit2 == 0) &&
       v.systemWallet == p.treasury &&
       (forall a <- p.arbiters :: a in v.admins || (after && a == owner)) &&
       (forall a <- forbidden :: a !in v.admins && !(after && a == owner)) &&
       (forall t <- p.tokens :: t.addr.Some? ==>
          t.addr.value in v.accepted && (if t.addr.value in v.symbol then v.symbol[t.addr.value] else "") == t.sym) &&
       (forall t <- p.tokens :: "p2p_platform" in p.rates && ("p2p_platform", t.sym) in rates &&
                                rates[("p2p_platform", t.sym)] == p.rates["p2p_platform"]) &&
       (forall t <- p.tokens :: "p2p" in p.rates && ("p2p", t.sym) in rates &&
                                rates[("p2p", t.sym)] == p.rates["p2p"]) &&
       (forall a <- p.otherTokens :: a !in v.accepted))
  {
    RatesLiveMeans(rates, p);
  }

  lemma RatesLiveMeans(rates: map<(string, Symbol), Rate>, p: Plan)
    ensures RatesLive(rates, p) <==>
      (forall t <- p.tokens :: "p2p_platform" in p.rates && ("p2p_platform", t.sym) in rates &&
                               rates[("p2p_platform", t.sym)] == p.rates["p2p_platform"]) &&
      (forall t <- p.tokens :: "p2p" in p.rates && ("p2p", t.sym) in rates && rates[("p2p", t.sym)] == p.rates["p2p"])
  {
    assert FEATURES[0] == "p2p_platform" && FEATURES[1] == "p2p" && |FEATURES| == 2;
    if RatesLive(rates, p) {
      forall t <- p.tokens ensures RateIs(rates, "p2p_platform", t.sym, p) && RateIs(rates, "p2p", t.sym, p) {
        assert FEATURES[0] in FEATURES && FEATURES[1] in FEATURES;
      }
    }
  }

  // The deterministic deploy's own read-back, value by value.
  lemma AssertMeans(v: Values, owner: Addr, deployer: Addr, p: Plan, fm: Option<Addr>)
    ensures AssertEscrow(v, owner, deployer, p, fm) <==>
      (forall a <- p.arbiters :: a in v.admins || a == owner) &&
      {p.operator, p.treasury, deployer} !! v.admins && v.systemWallet == p.treasury &&
      (forall t <- p.tokens :: t.addr.Some? ==>
         t.addr.value in v.accepted && (if t.addr.value in v.symbol then v.symbol[t.addr.value] else "") == t.sym) &&
      (p.permit2 == None || p.permit2 == Some(v.permit2)) && (fm == None || fm == Some(v.feeManager)) &&
      v.paymentWindow == p.window
  {
  }

  // One chain: the escrow, if there, every fee manager by its address, and the next address.
  class Chain {
    var escrow: P2PEscrow?
    var managers: map<Addr, FeeManager>
    var nextAddr: Addr

    constructor ()
      ensures escrow == null && managers == map[] && nextAddr == 1 && Valid()
    {
      escrow, managers, nextAddr := null, map[], 1;
    }

    predicate Valid()
      reads this
    {
      nextAddr != ZERO && forall a <- managers :: a < nextAddr && managers[a].self == a
    }
  }

  // The fee manager a read-back is told of (an option or the ledger), and the rates read from it.
  datatype Named = Named(addr: Addr, rates: map<(string, Symbol), Rate>)

  // What one run is given, and what its event scans say before and after the handover.
  datatype Run = Run(owner: Addr, deployer: Addr, routine: set<Addr>, routineLater: set<Addr>, ownerIsDeployer: bool,
                     confirmed: bool, knowsBlock: bool, named: Option<Named>, scanOk: bool, scanOkAfter: bool)

  predicate Proper(r: Run, deployer: Addr) {
    r.deployer == deployer && r.owner != ZERO && (r.ownerIsDeployer ==> r.owner == deployer)
  }

  // Every key that must never own the escrow; the deployer only when it is not meant to keep it.
  function Hot(r: Run): set<Addr> { r.routine + (if r.ownerIsDeployer then {} else {r.deployer}) }

  datatype Outcome = Refused | ReadBackOnly(clean: bool) | Died | NotHandedOver | HandedOver(clean: bool)

  predicate NeverOwner(r: Run, p: Plan) {
    r.owner in p.forbidden + Hot(r)
  }

  // The owner already holds an escrow that passes deterministic-escrow's read-back (no fee manager is asked for
  // there): the run only reads back.
  predicate AlreadyDone(c: Chain, r: Run, p: Plan)
    reads c, c.escrow
  {
    c.escrow != null && c.escrow.owner == r.owner && AssertEscrow(c.escrow.values, r.owner, r.deployer, p, None)
  }

  // The read-back of such a run: the live fee manager is the one it was told of, and everything reads as planned,
  // the owner now counting as an admin.
  ghost predicate ReadsBackClean(v: Values, owner: Addr, r: Run, p: Plan) {
    && r.knowsBlock && r.named.Some? && r.named.value.addr != ZERO && r.scanOkAfter
    && DirectClean(v, owner, r.named.value.rates, r.named.value.addr, p, p.forbidden + Hot(r), true)
  }

  // Nothing of an existing escrow may be touched by this run.
  ghost predicate HandsOff(c: Chain, r: Run, p: Plan)
    reads c, c.escrow
  {
    c.escrow != null && (c.escrow.values.feeManager != ZERO || c.escrow.owner != r.deployer || AlreadyDone(c, r, p))
  }

  // The values of an escrow of this owner, and the rates of its fee manager, as the plan has them.
  ghost predicate ReadAsPlanned(v: Values, rates: map<(string, Symbol), Rate>, owner: Addr, p: Plan) {
    && v.systemWallet == p.treasury && v.paymentWindow == p.window && v.feeBps == 50 && !v.paused
    && v.forwarder == 0 && v.mcgpToken == 0
    && (forall a <- p.arbiters :: a in v.admins || a == owner)
    && (forall a <- p.forbidden :: a !in v.admins && a != owner)
    && (forall t <- p.tokens :: ("p2p_platform", t.sym) in rates && ("p2p", t.sym) in rates &&
          "p2p_platform" in p.rates && rates[("p2p_platform", t.sym)] == p.rates["p2p_platform"] &&
          "p2p" in p.rates && rates[("p2p", t.sym)] == p.rates["p2p"])
  }

  // What every run keeps: a wired fee manager means every other configured value is set.
  ghost predicate FeeManagerMeansWired(c: Chain, p: Plan)
    reads c, c.escrow
  {
    c.escrow != null && c.escrow.values.feeManager != ZERO ==> SetButFeeManager(c.escrow.values, ConfigOf(p, None))
  }

  lemma RowsCover(p: Plan)
    requires GoodPlan(p)
    ensures RatesLive(RateRows(p), p)
  {
  }

  // How many transactions it takes from here: fee manager, its rates, the proxy if missing, each value that
  // differs, the window if it differs.
  function Needed(c: Chain, p: Plan): nat
    reads c, c.escrow
  {
    2 + One(c.escrow == null) + LeftToDo(StartValues(c, p), p, c.nextAddr)
  }

  // The values wiring starts from.
  function StartValues(c: Chain, p: Plan): Values
    reads c, c.escrow
  {
    if c.escrow == null then Initialized(p.arbiters) else c.escrow.values
  }

  function LeftToDo(v: Values, p: Plan, fm: Addr): nat {
    ToSend(v, ConfigOf(p, Some(fm))) + One(v.paymentWindow != p.window)
  }

  // A fresh fee manager with the live rates, the deployer's: two transactions.
  method DeployFeeManager(c: Chain, r: Run, p: Plan, fuse: nat) returns (fm: FeeManager?)
    requires GoodPlan(p) && c.Valid()
    modifies c`nextAddr, c`managers
    ensures fm != null <==> fuse >= 2
    ensures fm != null ==> fresh(fm) && fm.owner == r.deployer && fm.self == old(c.nextAddr) && RatesLive(fm.rates, p)
    ensures c.Valid() && c.managers == if fm == null then old(c.managers) else old(c.managers)[fm.self := fm]
  {
    fm := null;
    if fuse >= 2 {
      fm := new FeeManager(c.nextAddr, r.deployer);
      c.managers, c.nextAddr := c.managers[c.nextAddr := fm], c.nextAddr + 1;
      var _ := fm.SetRates(r.deployer, RateRows(p));
      RowsCover(p);
    }
  }

  // A run cut short of setting everything: what it did is some of the plan's, `left` transactions are missing, and
  // the fee manager comes after every other value of the configuration.
  ghost predicate CutShort(v0: Values, v: Values, p: Plan, fm: Addr, left: int) {
    && OnlyConfigured(v0, v, ConfigOf(p, Some(fm))) && FeeManagerLast(v0, v, ConfigOf(p, Some(fm)))
    && LeftToDo(v, p, fm) == left
  }

  // Steps 2 and 3: a fresh fee manager with the live rates, then the escrow created or resumed and wired to it.
  // `fuse` is how many transactions the process lives to send.
  method DeployAndWire(c: Chain, r: Run, p: Plan, fuse: nat) returns (fm: FeeManager?, esc: P2PEscrow?, alive: bool)
    requires GoodPlan(p) && (c.escrow != null ==> c.escrow.owner == r.deployer && c.escrow.values.feeManager == ZERO)
    requires c.Valid()
    modifies c, c.escrow
    ensures fm != null <==> fuse >= 2
    ensures fm != null ==> fresh(fm) && fm.owner == r.deployer && fm.self == old(c.nextAddr) && RatesLive(fm.rates, p)
    ensures c.Valid() && c.managers == if fm == null then old(c.managers) else old(c.managers)[fm.self := fm]
    ensures c.escrow != null <==> old(c.escrow) != null || fuse >= 3
    ensures old(c.escrow) != null ==> c.escrow == old(c.escrow)
    ensures c.escrow != null ==> c.escrow.owner == r.deployer && (c.escrow == old(c.escrow) || fresh(c.escrow))
    ensures FeeManagerMeansWired(c, p)
    ensures alive <==> fuse >= old(Needed(c, p))
    ensures alive ==> fm != null && esc != null && esc == c.escrow
    ensures alive ==> AllSet(esc.values, ConfigOf(p, Some(fm.self))) && esc.values.paymentWindow == p.window
    ensures alive ==>
              var v0 := old(StartValues(c, p));
              OnlyConfigured(v0, esc.values.(paymentWindow := v0.paymentWindow), ConfigOf(p, Some(fm.self)))
    // Cut short, exactly the rest is left to do, the fee manager and the window last.
    ensures !alive && fm != null && c.escrow != null ==>
              CutShort(old(StartValues(c, p)), c.escrow.values, p, fm.self, old(Needed(c, p)) - fuse)
  {
    hide TokensSet, TokensToSend, AddressesToSend, GoodTokens, RatesLive;
    fm, esc, alive := null, c.escrow, false;
    fm := DeployFeeManager(c, r, p, fuse);
    if fm == null { return; }
    var left: nat := fuse - 2;
    if c.escrow == null {
      if left == 0 { return; }
      esc := new P2PEscrow(r.deployer, p.arbiters);
      c.escrow := esc;
      left := left - 1;
    }
    var live;
    left, live := WireEscrow(esc, r.deployer, ConfigOf(p, Some(fm.self)), left);
    if !live { return; }
    ghost var v := esc.values;
    left, alive := Try(esc, r.deployer, esc.values.paymentWindow != p.window, SetPaymentWindow(p.window), left);
    WindowAside(v, esc.values, ConfigOf(p, Some(fm.self)));
    NothingToSend(v, ConfigOf(p, Some(fm.self)));
  }

  // The configuration has nothing to do with the window.
  lemma WindowAside(v: Values, w: Values, c: Config)
    requires w == v.(paymentWindow := w.paymentWindow)
    ensures AllSet(w, c) == AllSet(v, c) && SetButFeeManager(w, c) == SetButFeeManager(v, c)
    ensures ToSend(w, c) == ToSend(v, c)
  {
    TokensToSendReads(v, w, c.tokens);
  }

  // Ownership of both, last; the process may die between the two transfers.
  method TransferBoth(fm: FeeManager, esc: P2PEscrow, r: Run, fuse: nat) returns (alive: bool)
    requires fm.owner == esc.owner == r.deployer && r.owner != ZERO
    modifies fm`owner, esc`owner
    ensures alive <==> r.owner == r.deployer || fuse >= 2
    ensures fm.owner in {r.deployer, r.owner} && esc.owner in {r.deployer, r.owner}
    ensures alive ==> fm.owner == esc.owner == r.owner
    ensures esc.owner != r.deployer ==> fm.owner == r.owner
  {
    alive := false;
    if fm.owner != r.owner {
      if fuse == 0 { return; }
      var _ := fm.TransferOwnership(r.deployer, r.owner);
      if fuse == 1 { return; }
      var _ := esc.TransferOwnership(r.deployer, r.owner);
    }
    alive := true;
  }

  // The run stops before it sends anything.
  ghost predicate RefusesFirst(c: Chain, r: Run, p: Plan)
    reads c, c.escrow
  {
    || NeverOwner(r, p)
    || (!AlreadyDone(c, r, p) &&
        (!r.confirmed ||
         (c.escrow != null &&
          (!r.knowsBlock || c.escrow.values.feeManager != ZERO || (c.escrow.owner == r.owner && !r.ownerIsDeployer)))))
  }

  // The starts that are refused, and the escrow that is only read back, spelled out.
  lemma StartMeans(c: Chain, r: Run, p: Plan)
    ensures NeverOwner(r, p) <==>
              r.owner in p.forbidden || r.owner in r.routine || (r.owner == r.deployer && !r.ownerIsDeployer)
    ensures AlreadyDone(c, r, p) <==>
      (c.escrow != null && c.escrow.owner == r.owner &&
       var v := c.escrow.values;
       (forall a <- p.arbiters :: a in v.admins || a == r.owner) &&
       {p.operator, p.treasury, r.deployer} !! v.admins && v.systemWallet == p.treasury &&
       (forall t <- p.tokens :: t.addr.Some? ==>
          t.addr.value in v.accepted && (if t.addr.value in v.symbol then v.symbol[t.addr.value] else "") == t.sym) &&
       (p.permit2 == None || p.permit2 == Some(v.permit2)) && v.paymentWindow == p.window)
    ensures !NeverOwner(r, p) && !AlreadyDone(c, r, p) ==>
      (RefusesFirst(c, r, p) <==>
         (c.escrow != null && (c.escrow.values.feeManager != 0 || !r.knowsBlock)) || !r.confirmed ||
         (c.escrow != null && c.escrow.owner == r.owner && !r.ownerIsDeployer))
    ensures NeverOwner(r, p) ==> RefusesFirst(c, r, p)
    ensures !NeverOwner(r, p) && AlreadyDone(c, r, p) ==> !RefusesFirst(c, r, p)
  {
    if c.escrow != null { AssertMeans(c.escrow.values, r.owner, r.deployer, p, None); }
  }

  // Everything the run checks between wiring and the handover.
  ghost predicate MayHandOver(r: Run, p: Plan, v: Values, rates: map<(string, Symbol), Rate>, fm: Addr) {
    && !NeverOwner(r, p) && r.scanOk && r.owner !in r.routineLater
    && AssertEscrow(v, r.deployer, r.deployer, p, Some(fm))
    && DirectClean(v, r.deployer, rates, fm, p, p.forbidden + Hot(r), false)
  }

  ghost predicate MovedOwner(c: Chain, r: Run, escrow0: P2PEscrow?, owner0: Addr)
    reads c, c.escrow
  {
    c.escrow != null && c.escrow.owner != r.deployer && (escrow0 == null || owner0 == r.deployer)
  }

  // No deploy key is an arbiter (the explicit admin list is refused otherwise).
  ghost predicate CleanStart(r: Run, p: Plan) {
    r.deployer !in p.arbiters && p.arbiters !! r.routine && !NeverOwner(r, p)
  }

  // What wiring does not touch is as the checks before the handover want it.
  predicate Fit(r: Run, p: Plan, v0: Values) {
    && p.arbiters <= v0.admins && v0.admins !! p.forbidden + Hot(r) && r.deployer !in v0.admins
    && v0.feeBps == INIT_FEE_BPS && v0.forwarder == ZERO && v0.mcgpToken == ZERO && !v0.paused
    && (p.permit2.None? ==> v0.permit2 == ZERO) && v0.accepted !! p.otherTokens
  }

  // An escrow wired from the plan passes both read-backs exactly when it was fit to start with.
  lemma WiredReadsClean(r: Run, p: Plan, v0: Values, v: Values, rates: map<(string, Symbol), Rate>, fm: Addr)
    requires GoodPlan(p) && RatesLive(rates, p)
    requires AllSet(v, ConfigOf(p, Some(fm))) && v.paymentWindow == p.window
    requires OnlyConfigured(v0, v.(paymentWindow := v0.paymentWindow), ConfigOf(p, Some(fm)))
    ensures Fit(r, p, v0) <==>
              (AssertEscrow(v, r.deployer, r.deployer, p, Some(fm)) &&
               DirectClean(v, r.deployer, rates, fm, p, p.forbidden + Hot(r), false))
  {
    hide RatesLive, TokensSet;
    assert v.accepted !! p.otherTokens <==> v0.accepted !! p.otherTokens;
  }

  // A fresh escrow is fit.
  lemma FreshReadsClean(r: Run, p: Plan, v: Values, rates: map<(string, Symbol), Rate>, fm: Addr)
    requires GoodPlan(p) && CleanStart(r, p) && RatesLive(rates, p)
    requires AllSet(v, ConfigOf(p, Some(fm))) && v.paymentWindow == p.window
    requires OnlyConfigured(Initialized(p.arbiters), v.(paymentWindow := INIT_WINDOW), ConfigOf(p, Some(fm)))
    ensures AssertEscrow(v, r.deployer, r.deployer, p, Some(fm))
    ensures DirectClean(v, r.deployer, rates, fm, p, p.forbidden + Hot(r), false)
  {
    FreshIsFit(r, p);
    WiredReadsClean(r, p, Initialized(p.arbiters), v, rates, fm);
  }

  lemma FreshIsFit(r: Run, p: Plan)
    requires GoodPlan(p) && CleanStart(r, p)
    ensures Fit(r, p, Initialized(p.arbiters))
  {
  }

  // What read back clean under the deployer reads back clean under an owner that is no forbidden admin.
  lemma SameAfterHandover(r: Run, p: Plan, v: Values, rates: map<(string, Symbol), Rate>, fm: Addr)
    requires DirectClean(v, r.deployer, rates, fm, p, p.forbidden + Hot(r), false)
    ensures DirectClean(v, r.owner, rates, fm, p, p.forbidden + Hot(r), true) <==> !NeverOwner(r, p)
  {
  }

  // ---------------------------------------------------------------- runs that died in the wrong place

  // The deployer keeps the contracts and a run died right before the fee manager was set, everything else done:
  // every later run takes the escrow for finished and only reads it back, which fails. Exactly then: with any
  // value missing besides, the run resumes.
  lemma DiedBeforeFeeManager(c: Chain, r: Run, p: Plan)
    requires GoodPlan(p) && CleanStart(r, p) && r.ownerIsDeployer && r.owner == r.deployer && r.confirmed &&
        r.knowsBlock
    requires c.escrow != null && c.escrow.owner == r.deployer && c.escrow.values.feeManager == ZERO
    requires c.escrow.values.admins == p.arbiters
    ensures AlreadyDone(c, r, p) <==>
              SetButFeeManager(c.escrow.values, ConfigOf(p, None)) && c.escrow.values.paymentWindow == p.window
    ensures !RefusesFirst(c, r, p) && !ReadsBackClean(c.escrow.values, c.escrow.owner, r, p)
  {
  }

  // A run died after the fee manager was set but before its window was: no later run with this plan gets past the
  // start, so the window stays wrong until the owner sets it by hand.
  lemma DiedBeforeWindow(c: Chain, r: Run, p: Plan)
    requires c.escrow != null && c.escrow.values.feeManager != ZERO && c.escrow.values.paymentWindow != p.window
    ensures RefusesFirst(c, r, p) && !AlreadyDone(c, r, p)
  {
  }

  // One run, alive for `fuse` transactions of setup and `afterFuse` of the handover.
  method Deploy(c: Chain, r: Run, p: Plan, fuse: nat, afterFuse: nat) returns (o: Outcome, fm: FeeManager?)
    requires GoodPlan(p) && c.Valid() && Proper(r, r.deployer)
    requires FeeManagerMeansWired(c, p)
    modifies c, c.escrow
    ensures old(c.escrow) != null ==> c.escrow == old(c.escrow)
    ensures c.escrow != null ==> c.escrow == old(c.escrow) || fresh(c.escrow)
    ensures FeeManagerMeansWired(c, p) && c.Valid()
    ensures fm != null ==> fresh(fm) && fm.self == old(c.nextAddr)
    ensures c.managers == if fm == null then old(c.managers) else old(c.managers)[fm.self := fm]
    // An escrow that is wired, not the deployer's, or already done is never touched; and a refusal sends nothing.
    ensures o.Refused? <==> old(RefusesFirst(c, r, p))
    ensures o.ReadBackOnly? <==> old(AlreadyDone(c, r, p)) && !NeverOwner(r, p)
    ensures o.Refused? || o.ReadBackOnly? ==> fm == null && c.escrow == old(c.escrow)
    ensures c.escrow != null && (o.Refused? || o.ReadBackOnly? || old(HandsOff(c, r, p))) ==>
              (c.escrow.values == old(c.escrow.values) && c.escrow.owner == old(c.escrow.owner) &&
               c.escrow.sent == old(c.escrow.sent))
    // Neither contract leaves the deployer unless everything before the handover read back clean.
    ensures var owner0 := if old(c.escrow) == null then ZERO else old(c.escrow.owner);
            (fm != null && fm.owner != r.deployer) || MovedOwner(c, r, old(c.escrow), owner0) ==>
              (fm != null && c.escrow != null && fm.owner == r.owner && c.escrow.owner in {r.deployer, r.owner} &&
               MayHandOver(r, p, c.escrow.values, fm.rates, fm.self))
    // How a run that sends something ends, from what it was given. One whose escrow is somebody else's finds that out
    // after the fee manager; any other is wired, resumed or not, when it lives to send what is missing, and handed
    // over when the escrow was fit and the last checks pass.
    ensures var goes := !old(RefusesFirst(c, r, p)) && !old(AlreadyDone(c, r, p));
            var foreign := old(c.escrow != null && c.escrow.owner != r.deployer);
            var wires := goes && !foreign && fuse >= old(Needed(c, p));
            var passes := old(Fit(r, p, StartValues(c, p))) && r.scanOk && r.owner !in r.routineLater;
            var hands := r.owner == r.deployer || afterFuse >= 2;
            (o.Died? <==> goes && if foreign then fuse < 2 else !wires || (passes && !hands)) &&
            (o.NotHandedOver? <==> goes && if foreign then fuse >= 2 else wires && !passes) &&
            (o.HandedOver? <==> wires && passes && hands)
    ensures var goes := !old(RefusesFirst(c, r, p)) && !old(AlreadyDone(c, r, p));
            var own := goes && !old(c.escrow != null && c.escrow.owner != r.deployer);
            (goes ==> (fm != null <==> fuse >= 2)) &&
            (own ==> (c.escrow != null <==> old(c.escrow) != null || fuse >= 3)) &&
            (own && fuse >= old(Needed(c, p)) ==>
               fm != null && c.escrow != null && AllSet(c.escrow.values, ConfigOf(p, Some(fm.self))) &&
               c.escrow.values.paymentWindow == p.window && RatesLive(fm.rates, p)) &&
            (own && fuse < old(Needed(c, p)) && fm != null && c.escrow != null ==>
               c.escrow.owner == r.deployer &&
               CutShort(old(StartValues(c, p)), c.escrow.values, p, fm.self, old(Needed(c, p)) - fuse))
    ensures o.HandedOver? ==>
              (fm != null && c.escrow != null && fm.owner == c.escrow.owner == r.owner &&
               MayHandOver(r, p, c.escrow.values, fm.rates, fm.self))
    // A first run on a chain always gets through its own asserts.
    ensures old(c.escrow) == null && CleanStart(r, p) && r.scanOk && r.owner !in r.routineLater ==> !o.NotHandedOver?
    ensures o.ReadBackOnly? ==> (o.clean <==> ReadsBackClean(c.escrow.values, c.escrow.owner, r, p))
    // Reported clean or handed over, each token had the plan's rate for both features in the fee manager the escrow
    // reads, and the escrow the plan's treasury, window and arbiters.
    ensures o == ReadBackOnly(true) ==>
              var v, n := old(StartValues(c, p)), r.named.value;
              r.knowsBlock && r.scanOkAfter && v.feeManager == n.addr != 0 && ReadAsPlanned(v, n.rates, r.owner, p)
    ensures o.HandedOver? ==>
              c.escrow.values.feeManager == fm.self && ReadAsPlanned(c.escrow.values, fm.rates, r.owner, p)
    // After the handover only the event scan can still find something.
    ensures o.HandedOver? ==> o.clean == r.scanOkAfter
  {
    hide RatesLive, AllSet, OnlyConfigured, TokensSet, GoodPlan, Needed, CutShort, Fit;
    if CleanStart(r, p) { FreshIsFit(r, p); }
    ghost var v0 := StartValues(c, p);
    fm := null;
    if NeverOwner(r, p) { return Refused, null; }
    if AlreadyDone(c, r, p) {
      if !r.knowsBlock || r.named.None? || r.named.value.addr == ZERO { return ReadBackOnly(false), null; }
      var n := r.named.value;
      var clean := DirectClean(c.escrow.values, c.escrow.owner, n.rates, n.addr, p, p.forbidden + Hot(r), true);
      CleanMeans(c.escrow.values, c.escrow.owner, n.rates, n.addr, p, p.forbidden + Hot(r), true);
      return ReadBackOnly(clean && r.scanOkAfter), null;
    }
    if c.escrow != null {
      if c.escrow.owner == r.owner && !r.ownerIsDeployer { return Refused, null; }
      if c.escrow.values.feeManager != ZERO { return Refused, null; }
    }
    if !r.confirmed || (c.escrow != null && !r.knowsBlock) { return Refused, null; }
    if c.escrow != null && c.escrow.owner != r.deployer {
      // Found out only after the fee manager is there.
      fm := DeployFeeManager(c, r, p, fuse);
      return (if fm == null then Died else NotHandedOver), fm;
    }
    var esc, alive;
    fm, esc, alive := DeployAndWire(c, r, p, fuse);
    if !alive { return Died, fm; }
    WiredReadsClean(r, p, v0, esc.values, fm.rates, fm.self);
    if !AssertEscrow(esc.values, r.deployer, r.deployer, p, Some(fm.self)) { return NotHandedOver, fm; }
    var clean := DirectClean(esc.values, r.deployer, fm.rates, fm.self, p, p.forbidden + Hot(r), false);
    if !clean { return NotHandedOver, fm; }
    if !r.scanOk || r.owner in r.routineLater { return NotHandedOver, fm; }
    alive := TransferBoth(fm, esc, r, afterFuse);
    if !alive { return Died, fm; }
    SameAfterHandover(r, p, esc.values, fm.rates, fm.self);
    clean := DirectClean(esc.values, esc.owner, fm.rates, fm.self, p, p.forbidden + Hot(r), true);
    CleanMeans(esc.values, esc.owner, fm.rates, fm.self, p, p.forbidden + Hot(r), true);
    o := HandedOver(clean && r.scanOkAfter);
  }

  // A first run on a chain, cut after `fuse` transactions: exactly when are the two dead ends above reached? When one
  // transaction is missing -- the fee manager, if the plan keeps the window a fresh escrow has, or else that window.
  method FirstRunCut(r: Run, p: Plan, fuse: nat) returns (c: Chain, o: Outcome, fm: FeeManager?)
    requires GoodPlan(p) && CleanStart(r, p) && Proper(r, r.deployer) && r.confirmed
    ensures fresh(c) && c.Valid()
    ensures var last := fuse + 1 == 3 + LeftToDo(Initialized(p.arbiters), p, 1);
            (p.window == INIT_WINDOW && last <==>
               (c.escrow != null && c.escrow.values.feeManager == ZERO && c.escrow.values.paymentWindow == p.window &&
                SetButFeeManager(c.escrow.values, ConfigOf(p, None)))) &&
            (r.ownerIsDeployer ==>
               (p.window == INIT_WINDOW && last <==>
                  (c.escrow != null && c.escrow.values.feeManager == ZERO && AlreadyDone(c, r, p)))) &&
            (p.window != INIT_WINDOW && last <==>
               (c.escrow != null && c.escrow.values.feeManager != ZERO && c.escrow.values.paymentWindow != p.window))
  {
    c := new Chain();
    o, fm := Deploy(c, r, p, fuse, 0);
    if fm != null && c.escrow != null {
      if fuse < 3 + LeftToDo(Initialized(p.arbiters), p, 1) {
        CutOneShort(p, c.escrow.values, 3 + LeftToDo(Initialized(p.arbiters), p, 1) - fuse);
        if r.ownerIsDeployer && c.escrow.values.feeManager == ZERO {
          DiedBeforeFeeManager(c, r.(knowsBlock := true), p);
        }
      }
    }
  }

  lemma CutOneShort(p: Plan, v: Values, left: int)
    requires left >= 1 && CutShort(Initialized(p.arbiters), v, p, 1, left)
    ensures p.window == INIT_WINDOW && left == 1 <==>
              (v.feeManager == ZERO && v.paymentWindow == p.window && SetButFeeManager(v, ConfigOf(p, None)))
    ensures p.window != INIT_WINDOW && left == 1 <==> (v.feeManager != ZERO && v.paymentWindow != p.window)
    ensures v.admins == p.arbiters
  {
    hide TokensSet, TokensToSend;
    NothingToSend(v, ConfigOf(p, Some(1)));
    NothingToSend(v, ConfigOf(p, None));
  }

  // ---------------------------------------------------------------- any number of runs

  // An escrow no longer the deployer's is wired, has no forbidden admin, and its own fee manager -- the one at the
  // address it reads -- has the plan's rates and the escrow's owner.
  ghost predicate Vetted(c: Chain, deployer: Addr, p: Plan)
    reads c, c.escrow, c.managers.Values
  {
    c.escrow != null && c.escrow.owner != deployer ==>
      (c.escrow.values.feeManager in c.managers &&
       var fm := c.managers[c.escrow.values.feeManager];
       fm.owner == c.escrow.owner && fm.self == c.escrow.values.feeManager &&
       ReadAsPlanned(c.escrow.values, fm.rates, c.escrow.owner, p) &&
       DirectClean(c.escrow.values, deployer, fm.rates, fm.self, p, p.forbidden, false))
  }

  datatype Attempted = Attempted(run: Run, fuse: nat, afterFuse: nat)

  // Whatever runs follow one another, each with its own owner and keys and each dying anywhere: a set fee manager
  // still means everything else was set before it, a wired escrow is never written to again, and the escrow has
  // left the deployer only in the state the plan asks for, together with its fee manager.
  method Runs(c: Chain, deployer: Addr, p: Plan, runs: seq<Attempted>)
    requires GoodPlan(p) && c.Valid() && FeeManagerMeansWired(c, p) && Vetted(c, deployer, p)
    requires forall x <- runs :: Proper(x.run, deployer)
    modifies c, c.escrow
    ensures FeeManagerMeansWired(c, p) && Vetted(c, deployer, p)
    ensures old(c.escrow) != null ==> c.escrow == old(c.escrow)
    ensures old(c.escrow) != null && old(c.escrow.values.feeManager) != ZERO ==>
              (c.escrow.values == old(c.escrow.values) && c.escrow.owner == old(c.escrow.owner))
  {
    for i := 0 to |runs|
      invariant c.Valid() && FeeManagerMeansWired(c, p) && Vetted(c, deployer, p)
      invariant old(c.escrow) != null ==> c.escrow == old(c.escrow)
      invariant c.escrow != null ==> c.escrow == old(c.escrow) || fresh(c.escrow)
      invariant old(c.escrow) != null && old(c.escrow.values.feeManager) != ZERO ==>
                  (c.escrow.values == old(c.escrow.values) && c.escrow.owner == old(c.escrow.owner))
    {
      OneRun(c, deployer, p, runs[i]);
    }
  }

  method OneRun(c: Chain, deployer: Addr, p: Plan, x: Attempted)
    requires GoodPlan(p) && c.Valid() && FeeManagerMeansWired(c, p) && Vetted(c, deployer, p)
    requires Proper(x.run, deployer)
    modifies c, c.escrow
    ensures c.Valid() && FeeManagerMeansWired(c, p) && Vetted(c, deployer, p)
    ensures old(c.escrow) != null ==> c.escrow == old(c.escrow)
    ensures c.escrow != null ==> c.escrow == old(c.escrow) || fresh(c.escrow)
    ensures old(c.escrow) != null && old(c.escrow.values.feeManager) != ZERO ==>
              (c.escrow.values == old(c.escrow.values) && c.escrow.owner == old(c.escrow.owner))
  {
    hide GoodPlan, FeeManagerMeansWired, AssertEscrow, RatesLive;
    var o, fm := Deploy(c, x.run, p, x.fuse, x.afterFuse);
    if fm != null && c.escrow != null {
      CleanMeans(c.escrow.values, deployer, fm.rates, fm.self, p, p.forbidden + Hot(x.run), false);
      FewerForbidden(p, c.escrow.values, deployer, fm.rates, fm.self, p.forbidden + Hot(x.run));
    }
  }

  lemma FewerForbidden(p: Plan, v: Values, owner: Addr, rates: map<(string, Symbol), Rate>, fm: Addr,
      forbidden: set<Addr>)
    requires p.forbidden <= forbidden
    ensures DirectClean(v, owner, rates, fm, p, forbidden, false) ==>
        DirectClean(v, owner, rates, fm, p, p.forbidden, false)
  {
  }
}
