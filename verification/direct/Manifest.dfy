// One address per network class and salt (smart-contracts/deploy/deterministic-escrow.js, create2.js; the
// address formula is EIP-1014's).
module Manifest {
  import opened Common

  type Hash = nat
  type ChainId = nat
  type Class = string
  type Label = string

  // What the init code of implementation and proxy is built from.
  datatype Inputs = Inputs(implCode: Hash, deployer: Addr, admins: seq<Addr>)

  // Keccak-256 and the address of CREATE2 stand for themselves: any functions do.
  datatype Evm = Evm(saltOf: Label -> Hash, initHash: (Addr, Inputs) -> Hash, create2: (Hash, Hash) -> Addr)

  const IMPL_SALT_LABEL: Label := "tsa:P2PEscrowV3:impl:v1"

  datatype Recorded = Recorded(implSalt: Hash, implInitCodeHash: Hash, impl: Addr,
                               proxySalt: Hash, proxyInitCodeHash: Hash, proxy: Addr)

  datatype InitArgs = InitArgs(owner: Addr, admins: seq<Addr>)

  datatype PlanOf = PlanOf(salt: Label, recorded: Recorded, initArgs: InitArgs)

  datatype Entry = Entry(recorded: Recorded, initArgs: Option<InitArgs>, networks: set<ChainId>)

  type File = map<(Class, Label), Entry>

  function Plan(evm: Evm, x: Inputs, salt: Label): PlanOf {
    var implSalt := evm.saltOf(IMPL_SALT_LABEL);
    var impl := evm.create2(implSalt, x.implCode);
    var proxySalt := evm.saltOf(salt);
    var proxyHash := evm.initHash(impl, x);
    PlanOf(salt, Recorded(implSalt, x.implCode, impl, proxySalt, proxyHash, evm.create2(proxySalt, proxyHash)),
           InitArgs(x.deployer, x.admins))
  }

  // Both addresses are CREATE2's of their own salt and init code, the proxy's over the implementation's address.
  lemma PlanMeans(evm: Evm, x: Inputs, salt: Label)
    ensures var p := Plan(evm, x, salt); var rec := p.recorded;
            rec.implSalt == evm.saltOf("tsa:P2PEscrowV3:impl:v1") && rec.implInitCodeHash == x.implCode &&
            rec.impl == evm.create2(evm.saltOf("tsa:P2PEscrowV3:impl:v1"), x.implCode) &&
            rec.proxySalt == evm.saltOf(salt) && rec.proxyInitCodeHash == evm.initHash(rec.impl, x) &&
            rec.proxy == evm.create2(evm.saltOf(salt), evm.initHash(rec.impl, x)) &&
            p.salt == salt && p.initArgs == InitArgs(x.deployer, x.admins)
  {
  }

  // assertManifest lets the run go on.
  predicate Agrees(e: Option<Entry>, p: PlanOf) {
    e.None? || (e.value.initArgs == Some(p.initArgs) && e.value.recorded == p.recorded)
  }

  function Record(f: File, cls: Class, p: PlanOf, chain: ChainId): File {
    var nets := if (cls, p.salt) in f then f[(cls, p.salt)].networks else {};
    f[(cls, p.salt) := Entry(p.recorded, Some(p.initArgs), nets + {chain})]
  }

  // A deploy on one network: refused, dead before the proxy is on chain, dead before it is recorded, or recorded.
  datatype Fate = DiedEarly | DiedUnrecorded | Finished

  datatype Deploy = Deploy(cls: Class, salt: Label, x: Inputs, chain: ChainId, fate: Fate)

  // The file, and where proxies of each class and salt stand on each chain.
  datatype World = World(file: File, landed: map<(Class, Label, ChainId), set<Addr>>)

  function LandedAt(w: World, cls: Class, salt: Label, chain: ChainId): set<Addr> {
    if (cls, salt, chain) in w.landed then w.landed[(cls, salt, chain)] else {}
  }

  function Look(f: File, cls: Class, salt: Label): Option<Entry> {
    if (cls, salt) in f then Some(f[(cls, salt)]) else None
  }

  function After(evm: Evm, w: World, d: Deploy): World {
    var p := Plan(evm, d.x, d.salt);
    if !Agrees(Look(w.file, d.cls, d.salt), p) || d.fate.DiedEarly? then w
    else
      var landed := w.landed[(d.cls, d.salt, d.chain) := LandedAt(w, d.cls, d.salt, d.chain) + {p.recorded.proxy}];
      World(if d.fate.Finished? then Record(w.file, d.cls, p, d.chain) else w.file, landed)
  }

  function Run(evm: Evm, w: World, ds: seq<Deploy>): World {
    if ds == [] then w else After(evm, Run(evm, w, ds[..|ds| - 1]), ds[|ds| - 1])
  }

  // Where an entry has been committed, everything in it that fixes the address.
  ghost predicate Frozen(f: File, g: File) {
    forall k <- f :: k in g && g[k].recorded == f[k].recorded && f[k].networks <= g[k].networks &&
                     (f[k].initArgs.Some? ==> g[k].initArgs == f[k].initArgs)
  }

  // Every recorded chain has the entry's proxy, and its salts are its salt's.
  ghost predicate Sound(evm: Evm, w: World) {
    forall k <- w.file :: w.file[k].recorded.proxySalt == evm.saltOf(k.1) &&
      forall c <- w.file[k].networks :: w.file[k].recorded.proxy in LandedAt(w, k.0, k.1, c)
  }

  lemma StepKeeps(evm: Evm, w: World, d: Deploy)
    requires Sound(evm, w)
    ensures Sound(evm, After(evm, w, d)) && Frozen(w.file, After(evm, w, d).file)
  {
  }

  // Over any deploys on any networks, each dying anywhere: no recorded entry ever changes its salts, hashes,
  // addresses or init arguments, its chains only grow in number, and every recorded chain has its one proxy.
  lemma {:induction false} EntriesNeverChange(evm: Evm, w: World, ds: seq<Deploy>)
    requires Sound(evm, w)
    ensures Sound(evm, Run(evm, w, ds)) && Frozen(w.file, Run(evm, w, ds).file)
  {
    if ds != [] {
      var mid := Run(evm, w, ds[..|ds| - 1]);
      EntriesNeverChange(evm, w, ds[..|ds| - 1]);
      StepKeeps(evm, mid, ds[|ds| - 1]);
    }
  }

  // After an entry is there, a deploy of its class and salt does anything at all exactly when it would land at
  // the recorded address from the recorded arguments.
  lemma RefusedElsewhere(evm: Evm, w: World, d: Deploy)
    requires (d.cls, d.salt) in w.file && d.fate.Finished?
    ensures var e, p := w.file[(d.cls, d.salt)], Plan(evm, d.x, d.salt);
            d.chain in After(evm, w, d).file[(d.cls, d.salt)].networks <==>
              d.chain in e.networks || (e.recorded == p.recorded && e.initArgs == Some(p.initArgs))
  {
  }

  // What is not recorded is not pinned: a first run that died before recording leaves its proxy on chain, and a
  // later run from another deployer then records a different address for the same class and salt, exactly when
  // the two plans disagree on it.
  lemma UnrecordedIsNotPinned(evm: Evm, cls: Class, salt: Label, x: Inputs, y: Inputs, chain: ChainId)
    ensures var w := Run(evm, World(map[], map[]),
                         [Deploy(cls, salt, x, chain, DiedUnrecorded), Deploy(cls, salt, y, chain, Finished)]);
            var px, py := Plan(evm, x, salt).recorded.proxy, Plan(evm, y, salt).recorded.proxy;
            w.file[(cls, salt)].recorded.proxy == py &&
            (LandedAt(w, cls, salt, chain) == {py} <==> px == py)
  {
    var d, e := Deploy(cls, salt, x, chain, DiedUnrecorded), Deploy(cls, salt, y, chain, Finished);
    var w0: World := World(map[], map[]);
    assert [d, e][..1] == [d] && [d][..0] == [];
    assert Run(evm, w0, []) == w0;
    var w1 := After(evm, w0, d);
    assert Run(evm, w0, [d]) == w1;
    assert Run(evm, w0, [d, e]) == After(evm, w1, e);
    var px, py := Plan(evm, x, salt).recorded.proxy, Plan(evm, y, salt).recorded.proxy;
    assert LandedAt(w1, cls, salt, chain) == {px};
    assert px in {px} + {py};
  }
}
