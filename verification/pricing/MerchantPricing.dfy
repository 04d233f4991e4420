// The keyed amount store of the merchant forms (tsa-app/hooks/useMerchantPricing.ts).
module MerchantPricing {
  import opened Common
  import opened Conversion

  type Key = string

  const BASE_FEE_KEY: Key := "baseShippingFee"
  const ZONES: set<Key> := {"shippingSameCity", "shippingSameState", "shippingSameCountry", "shippingInternational"}

  // Multiplier of the base fee for each distance zone.
  const MULTIPLIERS: map<Key, real> :=
    map["shippingSameCity" := 1.0, "shippingSameState" := 1.5,
        "shippingSameCountry" := 2.5, "shippingInternational" := 5.0]

  datatype Form = Form(
    amounts: map<Key, Typed>, saved: map<Key, real>, edited: set<Key>, pending: Option<map<Key, Option<real>>>,
    picked: Option<string>, rates: Rates)

  datatype Op =
    | SetAmount(key: Key, value: Typed)
    | SetBaseFee(value: Typed)
    | Preset(base: real)
    | Load(parts: map<Key, Option<real>>)
    | Flush
    | Switch(code: string)
    | RatesMove(rates: Rates)
    | Settle(code: string)
    | Clear

  function Code(f: Form, fallback: string): string { if f.picked.Some? then f.picked.value else fallback }

  function Field(f: Form, k: Key): Typed { if k in f.amounts then f.amounts[k] else Blank }

  // The value submitted for a key, none when it is blank.
  function UsdFor(f: Form, k: Key, fallback: string): Option<real> {
    if k !in f.edited && k in f.saved then Some(f.saved[k])
    else if Field(f, k).Blank? then None
    else Some(LocalToUsd(Field(f, k), RateFor(Code(f, fallback), f.rates)))
  }

  function ZoneAmounts(fee: real): map<Key, Typed> {
    map z | z in MULTIPLIERS :: Format(R2(Times(fee, MULTIPLIERS[z])))
  }

  function WithBaseFee(f: Form, value: Typed): Form {
    var f' := f.(amounts := f.amounts[BASE_FEE_KEY := value]);
    if value.Amount? && value.value >= 0.0 then
      f'.(amounts := f'.amounts + ZoneAmounts(value.value),
          edited := f'.edited + ZONES)
    else f'
  }

  function Positive(o: Option<real>): Option<real> { if o.Some? && o.value > 0.0 then o else None }

  function Loaded(usd: map<Key, Option<real>>): map<Key, Option<real>> { map k | k in usd :: Positive(usd[k]) }

  function SavedWith(saved: map<Key, real>, usd: map<Key, Option<real>>): map<Key, real> {
    (saved - usd.Keys) + (map k | k in usd && Positive(usd[k]).Some? :: usd[k].value)
  }

  function WithLoad(f: Form, usd: map<Key, Option<real>>): Form {
    f.(saved := SavedWith(f.saved, usd), edited := f.edited - usd.Keys,
       pending := Some(if f.pending.Some? then f.pending.value + Loaded(usd) else Loaded(usd)))
  }

  function Shown(usd: Option<real>, rate: Option<real>): Typed {
    if usd.Some? then UsdToLocal(usd.value, rate) else Blank
  }

  function Flushed(f: Form, fallback: string): Form {
    var rate := RateFor(Code(f, fallback), f.rates);
    if f.pending.None? || f.picked.None? || rate.None? then f
    else
      var shown := map k | k in f.pending.value :: Shown(f.pending.value[k], rate);
      f.(amounts := f.amounts + shown, pending := None)
  }

  function Switched(f: Form, code: string, fallback: string): Form {
    if code == Code(f, fallback) then f
    else f.(amounts := map k | k in f.amounts :: Convert(f.amounts[k], Code(f, fallback), code, f.rates),
        picked := Some(code))
  }

  function Apply(f: Form, op: Op, fallback: string): Form {
    match op
    case SetAmount(k, v) => f.(amounts := f.amounts[k := v], edited := f.edited + {k})
    case SetBaseFee(v) => WithBaseFee(f, v)
    case Preset(usd) => WithBaseFee(f, UsdToLocal(usd, RateFor(Code(f, fallback), f.rates)))
    case Load(usd) => WithLoad(f, usd)
    case Flush => Flushed(f, fallback)
    case Switch(code) => Switched(f, code, fallback)
    case RatesMove(rates) => f.(rates := rates)
    case Settle(code) => if f.picked.None? then f.(picked := Some(code)) else f
    case Clear => Form(map[], map[], {}, None, f.picked, f.rates)
  }

  // ---------------------------------------------------------------- the saved price is submitted as it was

  // The base fee an operation types, if it types one that fills the zones.
  predicate Fills(f: Form, op: Op, fallback: string) {
    match op
    case SetBaseFee(v) => v.Amount? && v.value >= 0.0
    case Preset(usd) => UsdToLocal(usd, RateFor(Code(f, fallback), f.rates)).Amount?
    case _ => false
  }

  // The operation edits the key, fills it from a base fee, reloads it or resets the form.
  predicate Touches(f: Form, op: Op, k: Key, fallback: string) {
    match op
    case SetAmount(k', _) => k' == k
    case Load(usd) => k in usd
    case Clear => true
    case _ => Fills(f, op, fallback) && k in ZONES
  }

  function Run(f: Form, ops: seq<Op>, fallback: string): Form {
    if ops == [] then f else Apply(Run(f, ops[..|ops| - 1], fallback), ops[|ops| - 1], fallback)
  }

  ghost predicate Untouched(f: Form, ops: seq<Op>, k: Key, fallback: string) {
    forall n :: 0 <= n < |ops| ==> !Touches(Run(f, ops[..n], fallback), ops[n], k, fallback)
  }

  predicate KeepsSaved(f: Form, k: Key, usd: real) { k in f.saved && f.saved[k] == usd && k !in f.edited }

  // One operation keeps the saved price of a key exactly when it does not touch it -- or reloads it as it was.
  lemma StepKeepsSaved(f: Form, op: Op, k: Key, usd: real, fallback: string)
    requires KeepsSaved(f, k, usd) && usd > 0.0
    ensures KeepsSaved(Apply(f, op, fallback), k, usd) <==>
              !Touches(f, op, k, fallback) || (op.Load? && op.parts[k] == Some(usd))
  {
  }

  // After a load with a positive price, whatever is switched, repriced, typed elsewhere or loaded elsewhere, the
  // saved value is what is submitted, to the last digit, until the key itself is touched.
  lemma {:induction false} SavedPriceIsVerbatim(f: Form, load: map<Key, Option<real>>, ops: seq<Op>, k: Key,
      fallback: string)
    requires k in load && load[k].Some? && load[k].value > 0.0
    requires Untouched(Apply(f, Load(load), fallback), ops, k, fallback)
    ensures UsdFor(Run(Apply(f, Load(load), fallback), ops, fallback), k, fallback) == Some(load[k].value)
    ensures KeepsSaved(Run(Apply(f, Load(load), fallback), ops, fallback), k, load[k].value)
  {
    var start := Apply(f, Load(load), fallback);
    if ops == [] {
      assert k in Loaded(load);
    } else {
      var n := |ops| - 1;
      forall m | 0 <= m < n ensures ops[..n][..m] == ops[..m] {}
      SavedPriceIsVerbatim(f, load, ops[..n], k, fallback);
      StepKeepsSaved(Run(start, ops[..n], fallback), ops[n], k, load[k].value, fallback);
    }
  }

  // ---------------------------------------------------------------- what each operation means for a caller

  // Outside these keys nothing changes: what is shown, what is saved, what counts as edited, what is submitted.
  ghost predicate SameElsewhere(f: Form, g: Form, ks: set<Key>, fallback: string) {
    forall k :: k !in ks ==> SameKey(f, g, k, fallback)
  }

  predicate SameKey(f: Form, g: Form, k: Key, fallback: string) {
    && Field(g, k) == Field(f, k) && (k in g.edited <==> k in f.edited)
    && (k in g.saved <==> k in f.saved) && (k in f.saved && k in g.saved ==> g.saved[k] == f.saved[k])
    && UsdFor(g, k, fallback) == UsdFor(f, k, fallback)
  }

  lemma RoundedOnce(v: real)
    ensures R2(R2(v)) == R2(v)
  {
    WholeAtOne(Cents(v));
  }

  lemma ZoneAt(fee: real, z: Key)
    ensures ZoneAmounts(fee).Keys == ZONES == MULTIPLIERS.Keys
    ensures z in MULTIPLIERS ==> ZoneAmounts(fee)[z] == Format(Times(fee, MULTIPLIERS[z]))
  {
    if z in MULTIPLIERS { RoundedOnce(Times(fee, MULTIPLIERS[z])); }
  }

  lemma BaseFeeElsewhere(f: Form, fee: real, fallback: string)
    requires fee >= 0.0
    ensures SameElsewhere(f, Apply(f, SetBaseFee(Amount(fee)), fallback), ZONES + {BASE_FEE_KEY}, fallback)
  {
    hide LocalToUsd, R2;
  }

  // A base fee typed as a number: each distance zone shows the fee times its multiplier, rounded once, and submits
  // that at the current rate, whatever was saved for it; no saved price and no other key changes.
  lemma BaseFeeFillsZones(f: Form, fee: real, fallback: string)
    requires fee >= 0.0
    ensures var g := Apply(f, SetBaseFee(Amount(fee)), fallback); var rate := RateFor(Code(f, fallback), f.rates);
            (forall z <- MULTIPLIERS ::
               Field(g, z) == Format(Times(fee, MULTIPLIERS[z])) &&
               UsdFor(g, z, fallback) == Some(LocalToUsd(Format(Times(fee, MULTIPLIERS[z])), rate))) &&
            g.saved == f.saved && Field(g, BASE_FEE_KEY) == Amount(fee) &&
            SameElsewhere(f, g, ZONES + {BASE_FEE_KEY}, fallback)
  {
    hide LocalToUsd, R2, SameKey, ZoneAmounts;
    var g := Apply(f, SetBaseFee(Amount(fee)), fallback);
    BaseFeeElsewhere(f, fee, fallback);
    ZoneAt(fee, BASE_FEE_KEY);
    forall z <- MULTIPLIERS ensures Field(g, z) == Format(Times(fee, MULTIPLIERS[z])) && z in g.edited {
      ZoneAt(fee, z);
    }
  }

  // Loading in two parts is loading at once, the later part winning where they meet: a form may load its listing in
  // several requests.
  lemma LoadsMerge(f: Form, part: map<Key, Option<real>>, more: map<Key, Option<real>>, fallback: string)
    ensures Apply(Apply(f, Load(part), fallback), Load(more), fallback) == Apply(f, Load(part + more), fallback)
  {
    hide SavedWith, Loaded, Flushed, Switched, WithBaseFee;
    SavedMerge(f.saved, part, more);
    LoadedMerge(part, more);
    assert f.edited - part.Keys - more.Keys == f.edited - (part + more).Keys;
    if f.pending.Some? {
      assert f.pending.value + Loaded(part) + Loaded(more) == f.pending.value + (Loaded(part) + Loaded(more));
    }
  }

  lemma SavedAt(saved: map<Key, real>, usd: map<Key, Option<real>>, k: Key)
    ensures var g := SavedWith(saved, usd);
            (k in g <==> if k in usd then Positive(usd[k]).Some? else k in saved) &&
            (k in g ==> g[k] == if k in usd then usd[k].value else saved[k])
  {
  }

  lemma SavedMerge(saved: map<Key, real>, part: map<Key, Option<real>>, more: map<Key, Option<real>>)
    ensures SavedWith(SavedWith(saved, part), more) == SavedWith(saved, part + more)
  {
    hide SavedWith;
    var mid := SavedWith(saved, part);
    var g, h := SavedWith(mid, more), SavedWith(saved, part + more);
    forall k ensures (k in g <==> k in h) && (k in g && k in h ==> g[k] == h[k]) {
      SavedAt(saved, part, k);
      SavedAt(mid, more, k);
      SavedAt(saved, part + more, k);
    }
    assert g == h;
  }

  lemma LoadedMerge(part: map<Key, Option<real>>, more: map<Key, Option<real>>)
    ensures Loaded(part + more) == Loaded(part) + Loaded(more)
  {
  }

  lemma LoadElsewhere(f: Form, parts: map<Key, Option<real>>, fallback: string)
    ensures var g := Apply(f, Load(parts), fallback);
            SameElsewhere(f, g, parts.Keys, fallback) && g.amounts == f.amounts &&
            forall k <- parts ::
              k !in g.edited && (k in g.saved <==> parts[k].Some? && parts[k].value > 0.0) &&
              (parts[k].Some? && parts[k].value > 0.0 ==> UsdFor(g, k, fallback) == parts[k])
  {
    hide LocalToUsd, Loaded;
  }

  lemma FlushShows(f: Form, fallback: string)
    requires f.pending.Some? && f.picked.Some? && RateFor(f.picked.value, f.rates).Some?
    ensures var g := Apply(f, Flush, fallback); var rate := RateFor(f.picked.value, f.rates);
            SameElsewhere(f, g, f.pending.value.Keys, fallback) && g == f.(amounts := g.amounts, pending := None) &&
            forall k <- f.pending.value ::
              Field(g, k) == Shown(f.pending.value[k], rate)
  {
    hide LocalToUsd, UsdToLocal;
  }

  // Loaded and, once a rate is known, shown: a positive price is submitted as it was saved and shown at the rate, a
  // zero or missing one is blank and not submitted; with nothing else waiting, no other key changes.
  lemma LoadedIsShown(f: Form, parts: map<Key, Option<real>>, fallback: string)
    requires f.pending.None? && f.picked.Some? && RateFor(f.picked.value, f.rates).Some?
    ensures var g := Apply(Apply(f, Load(parts), fallback), Flush, fallback);
            var rate := RateFor(f.picked.value, f.rates);
            g.pending.None? && SameElsewhere(f, g, parts.Keys, fallback) &&
            forall k <- parts ::
              if parts[k].Some? && parts[k].value > 0.0
              then UsdFor(g, k, fallback) == parts[k] && Field(g, k) == UsdToLocal(parts[k].value, rate)
              else UsdFor(g, k, fallback) == None && Field(g, k) == Blank
  {
    hide LocalToUsd, UsdToLocal, SavedWith, Flushed;
    var mid := Apply(f, Load(parts), fallback);
    LoadElsewhere(f, parts, fallback);
    FlushShows(mid, fallback);
    assert mid.pending.value == Loaded(parts) && Loaded(parts).Keys == parts.Keys;
    forall k | k !in parts ensures SameKey(f, Apply(mid, Flush, fallback), k, fallback) {
      assert SameKey(f, mid, k, fallback) && SameKey(mid, Apply(mid, Flush, fallback), k, fallback);
    }
  }

  // Switching currency: a saved price not edited is submitted as before. An edited positive amount moves by at most
  // 1.5 cents and half of the new currency's smallest unit when both rates are known, and is blank, to be entered
  // again, when one is not. No saved price changes and nothing becomes edited.
  lemma SwitchMovesSubmitted(f: Form, code: string, k: Key, fallback: string)
    requires code != Code(f, fallback)
    ensures var g := Apply(f, Switch(code), fallback);
            var r1, r2 := RateFor(Code(f, fallback), f.rates), RateFor(code, f.rates);
            var before, after := UsdFor(f, k, fallback), UsdFor(g, k, fallback);
            g.saved == f.saved && g.edited == f.edited && Code(g, fallback) == code &&
            (k !in f.edited && k in f.saved ==> after == before == Some(f.saved[k])) &&
            (k in f.edited || k !in f.saved ==>
               match Field(f, k)
               case Blank => before == after == None
               case NotANumber => before == after == Some(0.0)
               case Amount(v) =>
                 if v <= 0.0 then before == after == Some(0.0)
                 else if r1.None? || r2.None? then Field(g, k) == Blank && after == None
                 else
                   var bound := 0.015 + 0.005 / r2.value;
                   before.Some? && after.Some? && before.value - bound <= after.value <= before.value + bound)
  {
    var r1, r2 := RateFor(Code(f, fallback), f.rates), RateFor(code, f.rates);
    var v := Field(f, k);
    if v.Amount? && v.value > 0.0 && r1.Some? && r2.Some? {
      SwitchMovesLittle(v.value, Code(f, fallback), code, f.rates);
    }
    hide Format, R2;
    var g := Apply(f, Switch(code), fallback);
    assert Field(g, k) == if k in f.amounts then Convert(v, Code(f, fallback), code, f.rates) else Blank;
  }

  lemma SetAmountElsewhere(f: Form, k: Key, v: Typed, fallback: string)
    ensures var g := Apply(f, Op.SetAmount(k, v), fallback);
            SameElsewhere(f, g, {k}, fallback) && g.saved == f.saved && Field(g, k) == v && k in g.edited
  {
    hide LocalToUsd;
  }

  // What is submitted for a key that was edited or has no saved price, read off the table: the amount shown, divided
  // by the entry of the code in use; nothing for a blank one, zero without a rate.
  lemma SubmittedFromTheTable(f: Form, k: Key, fallback: string, rate: real)
    requires k in f.edited || k !in f.saved
    ensures var code := if f.picked.Some? then f.picked.value else fallback; var usd := UsdFor(f, k, fallback);
            var shown := if k in f.amounts then f.amounts[k] else Blank;
            (shown.Blank? ==> usd == None) &&
            (shown.NotANumber? || (shown.Amount? && (shown.value <= 0.0 || Unpriced(code, f.rates))) ==>
               usd == Some(0.0)) &&
            (shown.Amount? && shown.value > 0.0 && Priced(code, f.rates, rate) ==>
               usd.Some? && usd.value >= 0.01 && -0.005 < usd.value - shown.value / rate &&
               (usd.value - shown.value / rate <= 0.005 || (usd.value == 0.01 && shown.value / rate < 0.005)))
  {
    hide LocalToUsd, RateFor;
    var code, shown := Code(f, fallback), Field(f, k);
    if shown.Amount? && shown.value > 0.0 && Priced(code, f.rates, rate) {
      SubmittedAtTheTable(shown.value, code, f.rates, rate);
    } else if !shown.Amount? || shown.value <= 0.0 || Unpriced(code, f.rates) {
      WithoutRateNothing(shown, code, f.rates);
    }
  }

  // What a switch shows: the old amount over the old entry times the new one.
  lemma SwitchShowsTheTable(f: Form, code: string, k: Key, fallback: string, r1: real, r2: real)
    requires code != (if f.picked.Some? then f.picked.value else fallback)
    requires k in f.amounts && f.amounts[k].Amount? && f.amounts[k].value > 0.0
    requires Priced(if f.picked.Some? then f.picked.value else fallback, f.rates, r1) && Priced(code, f.rates, r2)
    ensures var g := Apply(f, Switch(code), fallback);
            g.picked == Some(code) && k in g.amounts && g.amounts[k].Amount? &&
            -0.005 < g.amounts[k].value - f.amounts[k].value / r1 * r2 <= 0.005
  {
    hide Convert;
    ConvertedAtTheTable(f.amounts[k], Code(f, fallback), code, f.rates, r1, r2);
  }

  // The zones' multipliers, and the keys they fill.
  lemma ZonesOfAFee(f: Form, fee: real, fallback: string)
    requires fee >= 0.0
    ensures var g := Apply(f, SetBaseFee(Amount(fee)), fallback).amounts;
            "baseShippingFee" in g && g["baseShippingFee"] == Amount(fee) &&
            "shippingSameCity" in g && g["shippingSameCity"] == Format(fee) &&
            "shippingSameState" in g && g["shippingSameState"] == Format(Times(fee, 1.5)) &&
            "shippingSameCountry" in g && g["shippingSameCountry"] == Format(Times(fee, 2.5)) &&
            "shippingInternational" in g && g["shippingInternational"] == Format(Times(fee, 5.0))
  {
    hide R2, LocalToUsd;
    BaseFeeFillsZones(f, fee, fallback);
    assert Times(fee, 1.0) == fee;
    var g := Apply(f, SetBaseFee(Amount(fee)), fallback);
    forall z <- MULTIPLIERS ensures Field(g, z) == Format(Times(fee, MULTIPLIERS[z])) {}
  }

  // A package preset is its dollar price typed as a base fee; nothing that is not a fee fills a zone.
  lemma PresetIsAFee(f: Form, usd: real, fallback: string)
    ensures var code := if f.picked.Some? then f.picked.value else fallback;
            Apply(f, Preset(usd), fallback) == Apply(f, SetBaseFee(UsdToLocal(usd, RateFor(code, f.rates))), fallback)
    ensures forall v: Typed :: !v.Amount? || v.value < 0.0 ==>
              Apply(f, SetBaseFee(v), fallback) == f.(amounts := f.amounts["baseShippingFee" := v])
  {
  }

  // The currency is settled once; new rates change no amount; a reset forgets all but the currency.
  lemma OtherOperations(f: Form, code: string, rates: Rates, k: Key, fallback: string)
    ensures Apply(f, Settle(code), fallback) == f.(picked := if f.picked.Some? then f.picked else Some(code))
    ensures Apply(f, RatesMove(rates), fallback) == f.(rates := rates)
    ensures var g := Apply(f, Clear, fallback);
            UsdFor(g, k, fallback) == None && g.picked == f.picked && g.rates == f.rates && g.saved == map[] &&
            g.pending.None?
  {
  }

  // The store, updated in place; each method is one operation of the fold above.
  class Store {
    var amounts: map<Key, Typed>
    var saved: map<Key, real>
    var edited: set<Key>
    var pending: Option<map<Key, Option<real>>>
    var picked: Option<string>
    var rates: Rates
    const fallback: string

    function View(): Form
      reads this
    {
      Form(amounts, saved, edited, pending, picked, rates)
    }

    constructor (rates: Rates, fallback: string)
      ensures View() == Form(map[], map[], {}, None, None, rates) && this.fallback == fallback
    {
      amounts, saved, edited, pending, picked := map[], map[], {}, None, None;
      this.rates, this.fallback := rates, fallback;
    }

    method SetAmount(key: Key, value: Typed)
      modifies this
      ensures View() == Apply(old(View()), Op.SetAmount(key, value), fallback)
      ensures SameElsewhere(old(View()), View(), {key}, fallback)
      ensures saved == old(saved) && Field(View(), key) == value && key in edited
    {
      SetAmountElsewhere(View(), key, value, fallback);
      amounts := amounts[key := value];
      edited := edited + {key};
    }

    method SetBaseShippingFee(value: Typed)
      modifies this
      ensures View() == Apply(old(View()), SetBaseFee(value), fallback)
      ensures saved == old(saved) && SameElsewhere(old(View()), View(), ZONES + {BASE_FEE_KEY}, fallback)
    {
      if value.Amount? && value.value >= 0.0 { BaseFeeFillsZones(View(), value.value, fallback); }
      amounts := amounts[BASE_FEE_KEY := value];
      if !value.Amount? || value.value < 0.0 { return; }
      amounts := amounts + ZoneAmounts(value.value);
      edited := edited + ZONES;
    }

    method ApplyPackagePreset(usd: real)
      modifies this
      ensures View() == Apply(old(View()), Preset(usd), fallback)
      ensures saved == old(saved) && SameElsewhere(old(View()), View(), ZONES + {BASE_FEE_KEY}, fallback)
    {
      SetBaseShippingFee(UsdToLocal(usd, RateFor(Code(View(), fallback), rates)));
    }

    method LoadSavedAmounts(usd: map<Key, Option<real>>)
      modifies this
      ensures View() == Apply(old(View()), Load(usd), fallback)
      ensures SameElsewhere(old(View()), View(), usd.Keys, fallback) && amounts == old(amounts)
      ensures forall k <- usd :: usd[k].Some? && usd[k].value > 0.0 ==> UsdFor(View(), k, fallback) == usd[k]
    {
      LoadElsewhere(View(), usd, fallback);
      saved := SavedWith(saved, usd);
      edited := edited - usd.Keys;
      pending := Some(if pending.Some? then pending.value + Loaded(usd) else Loaded(usd));
    }

    method FlushPending()
      modifies this
      ensures View() == Apply(old(View()), Flush, fallback)
      ensures saved == old(saved) && edited == old(edited)
      ensures old(pending).Some? ==> SameElsewhere(old(View()), View(), old(pending).value.Keys, fallback)
    {
      var rate := RateFor(Code(View(), fallback), rates);
      if pending.None? || picked.None? || rate.None? { return; }
      FlushShows(View(), fallback);
      amounts := amounts + (map k | k in pending.value :: Shown(pending.value[k], rate));
      pending := None;
    }

    method SwitchCurrency(code: string)
      modifies this
      ensures View() == Apply(old(View()), Switch(code), fallback)
      ensures saved == old(saved) && edited == old(edited)
      ensures forall k <- saved :: k !in edited ==> UsdFor(View(), k, fallback) == Some(saved[k])
    {
      var now := Code(View(), fallback);
      if code == now { return; }
      amounts := map k | k in amounts :: Convert(amounts[k], now, code, rates);
      picked := Some(code);
    }

    method Reset()
      modifies this
      ensures View() == Apply(old(View()), Clear, fallback)
    {
      amounts, saved, pending, edited := map[], map[], None, {};
    }
  }
}
