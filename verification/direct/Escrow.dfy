// What the deploy scripts use of the escrow (smart-contracts/contracts/P2PEscrowV3.sol): its per-chain values,
// its owner and its explicit admins.
module Escrow {
  import opened Common

  type Symbol = string

  // Values of an escrow. `feeBps`, `paymentWindow` and the admins come from initialize().
  datatype Values = Values(
    systemWallet: Addr, accepted: set<Addr>, symbol: map<Addr, Symbol>, mcgpToken: Addr, permit2: Addr,
    forwarder: Addr, feeManager: Addr, feeBps: nat, paymentWindow: nat, paused: bool, admins: set<Addr>)

  function SymbolOf(v: Values, token: Addr): Symbol { if token in v.symbol then v.symbol[token] else "" }

  const INIT_FEE_BPS: nat := 50
  const INIT_WINDOW: nat := 1800

  function Initialized(admins: set<Addr>): Values {
    Values(ZERO, {}, map[], ZERO, ZERO, ZERO, ZERO, INIT_FEE_BPS, INIT_WINDOW, false, admins)
  }

  // One of the owner's setters.
  datatype Setter =
    | SetSystemWallet(to: Addr)
    | SetTokenAcceptance(token: Addr)
    | SetTokenSymbol(token: Addr, sym: Symbol)
    | SetMcgpToken(to: Addr)
    | SetPermit2(to: Addr)
    | SetTrustedForwarder(to: Addr)
    | SetFeeManager(to: Addr)
    | SetPaymentWindow(secs: nat)
    | SetFeeBps(bps: nat)

  const MIN_WINDOW: nat := 300
  const MAX_WINDOW: nat := 86400
  const MAX_FEE_BPS: nat := 500

  // The contract's own checks.
  predicate Takes(v: Values, s: Setter) {
    match s
    case SetSystemWallet(to) => to != ZERO
    case SetTokenAcceptance(token) => token != ZERO
    case SetTokenSymbol(token, _) => token != ZERO
    case SetMcgpToken(to) => to != ZERO && to in v.accepted
    case SetFeeManager(to) => to != ZERO
    case SetPaymentWindow(secs) => MIN_WINDOW <= secs <= MAX_WINDOW
    case SetFeeBps(bps) => bps <= MAX_FEE_BPS
    case _ => true
  }

  function Apply(v: Values, s: Setter): Values {
    match s
    case SetSystemWallet(to) => v.(systemWallet := to)
    case SetTokenAcceptance(token) => v.(accepted := v.accepted + {token})
    case SetTokenSymbol(token, sym) => v.(symbol := v.symbol[token := sym])
    case SetMcgpToken(to) => v.(mcgpToken := to)
    case SetPermit2(to) => v.(permit2 := to)
    case SetTrustedForwarder(to) => v.(forwarder := to)
    case SetFeeManager(to) => v.(feeManager := to)
    case SetPaymentWindow(secs) => v.(paymentWindow := secs)
    case SetFeeBps(bps) => v.(feeBps := bps)
  }

  // A setter sets its own value, and no other; the contract turns away zero addresses, windows and fees out of bounds,
  // and an MCGP token not accepted.
  lemma SettersSetTheirOwn(v: Values, s: Setter)
    ensures var w := Apply(v, s);
      match s
      case SetSystemWallet(a) => w.systemWallet == a && w == v.(systemWallet := a) && (Takes(v, s) <==> a != 0)
      case SetTokenAcceptance(a) => w == v.(accepted := v.accepted + {a}) && (Takes(v, s) <==> a != 0)
      case SetTokenSymbol(a, sym) =>
        SymbolOf(w, a) == sym && w == v.(symbol := v.symbol[a := sym]) && (Takes(v, s) <==> a != 0)
      case SetMcgpToken(a) => w == v.(mcgpToken := a) && (Takes(v, s) <==> a != 0 && a in v.accepted)
      case SetPermit2(a) => w == v.(permit2 := a) && Takes(v, s)
      case SetTrustedForwarder(a) => w == v.(forwarder := a) && Takes(v, s)
      case SetFeeManager(a) => w == v.(feeManager := a) && (Takes(v, s) <==> a != 0)
      case SetPaymentWindow(n) => w == v.(paymentWindow := n) && (Takes(v, s) <==> 300 <= n <= 86400)
      case SetFeeBps(n) => w == v.(feeBps := n) && (Takes(v, s) <==> n <= 500)
    ensures forall admins: set<Addr> ::
              var w := Initialized(admins);
              w.feeBps == 50 && w.paymentWindow == 1800 && w.admins == admins && w.accepted == {} && !w.paused &&
              {w.systemWallet, w.mcgpToken, w.permit2, w.forwarder, w.feeManager} == {0}
  {
  }

  class P2PEscrow {
    var values: Values
    var owner: Addr
    var sent: nat

    constructor (owner: Addr, admins: set<Addr>)
      ensures this.owner == owner && values == Initialized(admins) && sent == 0
    {
      this.owner, values, sent := owner, Initialized(admins), 0;
    }

    // A transaction from `signer`: it reverts unless the owner sends it and the contract takes it.
    method Send(signer: Addr, s: Setter) returns (ok: bool)
      modifies this`values, this`sent
      ensures ok <==> signer == owner && Takes(old(values), s)
      ensures values == if ok then Apply(old(values), s) else old(values)
      ensures sent == if ok then old(sent) + 1 else old(sent)
    {
      ok := signer == owner && Takes(values, s);
      if ok { values, sent := Apply(values, s), sent + 1; }
    }

    // One-step: the new owner is final.
    method TransferOwnership(signer: Addr, to: Addr) returns (ok: bool)
      modifies this`owner
      ensures ok <==> signer == old(owner) && to != ZERO
      ensures owner == if ok then to else old(owner)
    {
      ok := signer == owner && to != ZERO;
      if ok { owner := to; }
    }
  }

  datatype Rate = Rate(bps: nat, flatUSD: nat, mcgpExempt: bool, active: bool)

  class FeeManager {
    const self: Addr
    var owner: Addr
    var rates: map<(string, Symbol), Rate>

    constructor (self: Addr, owner: Addr)
      ensures this.self == self && this.owner == owner && rates == map[]
    {
      this.self, this.owner, rates := self, owner, map[];
    }

    method SetRates(signer: Addr, rows: map<(string, Symbol), Rate>) returns (ok: bool)
      modifies this`rates
      ensures ok <==> signer == owner
      ensures rates == if ok then old(rates) + rows else old(rates)
    {
      ok := signer == owner;
      if ok { rates := rates + rows; }
    }

    method TransferOwnership(signer: Addr, to: Addr) returns (ok: bool)
      modifies this`owner
      ensures ok <==> signer == old(owner) && to != ZERO
      ensures owner == if ok then to else old(owner)
    {
      ok := signer == owner && to != ZERO;
      if ok { owner := to; }
    }
  }
}
