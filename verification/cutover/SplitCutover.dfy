// Turning the on-chain fee split off for good (smart-contracts/scripts/system-wallet-cutover.js), while anyone may
// call the proxy's public one-time initialiser at any moment
// (smart-contracts/contracts/ProductEscrowV2.sol).
module SplitCutover {
  import opened Common

  class Proxy {
    const owner: Addr
    var hasWallet: bool
    var version: nat
    var split: bool
    var wallet: Addr

    constructor (owner: Addr, hasWallet: bool, version: nat, split: bool, wallet: Addr)
      ensures this.owner == owner && this.hasWallet == hasWallet && this.version == version
      ensures this.split == split && this.wallet == wallet
    {
      this.owner, this.hasWallet, this.version := owner, hasWallet, version;
      this.split, this.wallet := split, wallet;
    }

    // reinitializer(2), public: works once, and turns the split on.
    method InitializeV2() returns (ok: bool)
      modifies this`version, this`split
      ensures ok <==> old(version) < 2
      ensures version == (if ok then 2 else old(version)) && split == (ok || old(split))
    {
      ok := version < 2;
      if ok { version, split := 2, true; }
    }

    // The upgrade adds the system wallet; with `init` it runs the initialiser in the same transaction, and the
    // whole of it reverts if that one does.
    method UpgradeToAndCall(sender: Addr, init: bool) returns (ok: bool)
      modifies this
      ensures ok <==> sender == owner && (init ==> old(version) < 2)
      ensures hasWallet == (ok || old(hasWallet)) && wallet == old(wallet)
      ensures version == (if ok && init then 2 else old(version)) && split == ((ok && init) || old(split))
    {
      ok := sender == owner && (init ==> version < 2);
      if ok {
        hasWallet := true;
        if init { var _ := InitializeV2(); }
      }
    }

    method SetSystemWallet(sender: Addr, to: Addr) returns (ok: bool)
      modifies this`wallet
      ensures ok <==> sender == owner && hasWallet && to != 0
      ensures wallet == if ok then to else old(wallet)
    {
      ok := sender == owner && hasWallet && to != 0;
      if ok { wallet := to; }
    }

    method SetLegacySplitEnabled(sender: Addr, on: bool) returns (ok: bool)
      modifies this`split
      ensures ok <==> sender == owner
      ensures split == if ok then on else old(split)
    {
      ok := sender == owner;
      if ok { split := on; }
    }

    // Everybody else, `n` public calls in a row.
    method Strangers(n: nat)
      modifies this`version, this`split
      ensures old(version) >= 2 ==> version == old(version) && split == old(split)
      ensures version >= old(version) && (version == old(version) ==> split == old(split))
      ensures version != old(version) ==> version == 2 && split && n > 0
      ensures n > 0 ==> version >= 2
    {
      for i := 0 to n
        invariant old(version) >= 2 ==> version == old(version) && split == old(split)
        invariant version >= old(version) && (version == old(version) ==> split == old(split))
        invariant version != old(version) ==> version == 2 && split && n > 0
        invariant i > 0 ==> version >= 2
      {
        var _ := InitializeV2();
      }
    }
  }

  datatype Outcome = NotOwner | Died | Reverted | Completed

  // Off, paid to the fee wallet, and past the point where anyone else can turn it on.
  predicate Settled(p: Proxy, feeWallet: Addr)
    reads p
  {
    p.hasWallet && p.wallet == feeWallet && !p.split && p.version >= 2
  }

  // One executing run, alive for `fuse` transactions; `strangers(i)` public calls come in before the i-th read or
  // transaction. Whatever the proxy was -- upgraded or not, initialiser open or used, split on or off -- a run
  // that completes leaves it settled. A run is reverted only by a stranger who takes the initialiser first, which
  // can happen once: after it the initialiser is used up.
  method UpgradeAndFlip(p: Proxy, signer: Addr, feeWallet: Addr, fuse: nat, strangers: nat -> nat)
    returns (o: Outcome, sent: nat)
    requires feeWallet != 0
    modifies p
    ensures o.NotOwner? <==> signer != p.owner
    ensures o.Completed? ==> Settled(p, feeWallet) && p.wallet == feeWallet && !p.split && p.version >= 2
    ensures o.Reverted? ==> old(p.version) < 2 <= p.version && sent == 0
    ensures o.Died? ==> sent == fuse && fuse < 3
    ensures sent <= 3
    ensures p.version >= old(p.version) && (old(p.hasWallet) ==> p.hasWallet)
    ensures old(Settled(p, feeWallet)) && signer == p.owner ==> o.Completed? && sent == 0
  {
    sent := 0;
    if signer != p.owner { return NotOwner, 0; }
    p.Strangers(strangers(0));
    var initOpen := p.version < 2;
    if !p.hasWallet || initOpen {
      if fuse == 0 { return Died, 0; }
      p.Strangers(strangers(1));
      var ok;
      if !p.hasWallet { ok := p.UpgradeToAndCall(signer, initOpen); } else { ok := p.InitializeV2(); }
      if !ok { return Reverted, 0; }
      sent := 1;
    }
    p.Strangers(strangers(2));
    if p.wallet != feeWallet {
      if sent == fuse { return Died, sent; }
      var _ := p.SetSystemWallet(signer, feeWallet);
      sent := sent + 1;
    }
    p.Strangers(strangers(3));
    if p.split {
      if sent == fuse { return Died, sent; }
      p.Strangers(strangers(4));
      var _ := p.SetLegacySplitEnabled(signer, false);
      sent := sent + 1;
    }
    o := Completed;
  }

  // A run that died or was front-run, then one left to finish, then strangers for as long as they like: the fee
  // wallet is set and the split stays off, and the second run is never reverted if the first one was.
  method CrashedThenCompleted(p: Proxy, signer: Addr, feeWallet: Addr, fuse: nat, s1: nat -> nat, s2: nat -> nat,
      later: nat)
    returns (first: Outcome, second: Outcome)
    requires feeWallet != 0 && signer == p.owner
    modifies p
    ensures second in {Completed, Reverted}
    ensures first in {Reverted, Completed} ==> second.Completed?
    ensures second.Completed? ==> Settled(p, feeWallet) && p.wallet == feeWallet && !p.split && p.version >= 2
  {
    var n;
    first, n := UpgradeAndFlip(p, signer, feeWallet, fuse, s1);
    second, n := UpgradeAndFlip(p, signer, feeWallet, 3, s2);
    p.Strangers(later);
  }
}
