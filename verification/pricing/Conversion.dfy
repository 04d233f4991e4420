// Converting merchant prices between US dollars and a local currency
// (tsa-app/hooks/useMerchantPricing.ts), over exact rationals.
module Conversion {
  import opened Common

  // What is in an amount field: nothing, something that is not a number, or a number.
  datatype Typed = Blank | NotANumber | Amount(value: real)

  // To two decimals, a half upwards.
  function Cents(v: real): int { (v * 100.0 + 0.5).Floor }

  function R2(v: real): real { Cents(v) as real / 100.0 }

  function Format(v: real): Typed { Amount(R2(v)) }

  function Over(x: real, rate: real): real
    requires rate > 0.0
  {
    x / rate
  }

  function Times(x: real, rate: real): real { x * rate }

  type Rates = map<string, real>

  function RateFor(code: string, rates: Rates): (rate: Option<real>)
    ensures rate.Some? ==> rate.value > 0.0
  {
    if code == "USD" then Some(1.0)
    else if code in rates && rates[code] > 0.0 then Some(rates[code])
    else None
  }

  function LocalToUsd(local: Typed, rate: Option<real>): real {
    if !local.Amount? || local.value <= 0.0 || rate.None? || rate.value <= 0.0 then 0.0
    else
      var rounded := R2(Over(local.value, rate.value));
      if rounded <= 0.0 then 0.01 else rounded
  }

  function UsdToLocal(usd: real, rate: Option<real>): Typed {
    if usd <= 0.0 || rate.None? || rate.value <= 0.0 then Blank else Format(Times(usd, rate.value))
  }

  function Convert(value: Typed, fromCode: string, toCode: string, rates: Rates): Typed {
    if !value.Amount? || value.value <= 0.0 then value
    else
      var f, t := RateFor(fromCode, rates), RateFor(toCode, rates);
      if f.None? || t.None? then Blank else Format(Times(Over(value.value, f.value), t.value))
  }

  // ---------------------------------------------------------------- rounding

  // Rounding moves a value by at most half a cent, never past the half below.
  lemma RoundsToNearest(v: real)
    ensures -0.005 < R2(v) - v <= 0.005
  {
  }

  lemma NearestWholeCent(v: real, c: int)
    requires c as real - 0.5 <= v * 100.0 < c as real + 0.5
    ensures Cents(v) == c
  {
  }

  lemma QuotientAtMost(d: real, b: real, r: real)
    requires r > 0.0
    ensures d <= b * r <==> d / r <= b
    ensures d / r * r == d
  {
  }

  lemma Distribute(a: real, b: real, r: real)
    ensures (a + b) * r == a * r + b * r && (a - b) * r == a * r - b * r
  {
  }

  // What is shown, read back, is the dollars plus the rounding error shrunk by the rate.
  lemma ReadBack(usd: real, rate: real, exact: real, shown: real)
    requires rate >= 1.0 && exact == usd * rate && -0.005 < shown - exact <= 0.005
    ensures usd - 0.005 < shown / rate <= usd + 0.005
    ensures rate > 1.0 ==> shown / rate < usd + 0.005
  {
    Distribute(usd, 0.005, rate);
    var up, down := (usd + 0.005) * rate, (usd - 0.005) * rate;
    assert up == exact + 0.005 * rate && down == exact - 0.005 * rate;
    QuotientAtMost(shown, usd + 0.005, rate);
    QuotientAtMost(shown, usd - 0.005, rate);
    assert shown <= up && shown > down;
    var q := shown / rate;
    if q == usd + 0.005 { assert q * rate == up; }
  }

  lemma SubmittedAs(shown: real, rate: real, cents: int)
    requires shown > 0.0 && rate > 0.0 && cents > 0 && Cents(shown / rate) == cents
    ensures LocalToUsd(Amount(shown), Some(rate)) == cents as real / 100.0
  {
  }

  // A whole number of cents shown at any rate of at least one local unit to the dollar reads back as itself.
  lemma PriceRoundTrip(cents: int, rate: real)
    requires cents > 0 && rate >= 1.0
    ensures LocalToUsd(UsdToLocal(cents as real / 100.0, Some(rate)), Some(rate)) == cents as real / 100.0
  {
    hide LocalToUsd, Cents, R2;
    var usd := cents as real / 100.0;
    var exact := usd * rate;
    var shown := R2(exact);
    assert UsdToLocal(usd, Some(rate)) == Amount(R2(Times(usd, rate))) && Times(usd, rate) == exact;
    RoundsToNearest(exact);
    AtLeast(usd, rate);
    ShownPositive(exact);
    ReadBack(usd, rate, exact, shown);
    if rate == 1.0 {
      assert exact == usd;
      WholeAtOne(cents);
      assert shown / rate == usd;
    }
    NearestWholeCent(shown / rate, cents);
    SubmittedAs(shown, rate, cents);
  }

  lemma AtLeast(usd: real, rate: real)
    requires usd > 0.0 && rate >= 1.0
    ensures usd * rate >= usd
  {
  }

  lemma ShownPositive(v: real)
    requires v >= 0.01
    ensures R2(v) > 0.0
  {
  }

  lemma WholeAtOne(cents: int)
    ensures R2(cents as real / 100.0) == cents as real / 100.0
  {
    NearestWholeCent(cents as real / 100.0, cents);
  }

  // ---------------------------------------------------------------- switching currency

  // Typed in one currency: what is submitted is at least a cent, and within half a cent or at the one-cent floor.
  lemma SubmittedNear(local: real, rate: real)
    requires local > 0.0 && rate > 0.0
    ensures var usd, exact := LocalToUsd(Amount(local), Some(rate)), Over(local, rate);
            usd >= 0.01 && -0.005 < usd - exact && (usd - exact <= 0.005 || (usd == 0.01 && exact < 0.005))
  {
  }

  lemma RescaledError(exact: real, rate: real, shown: real)
    requires rate > 0.0 && -0.005 < shown - exact * rate <= 0.005
    ensures exact - 0.005 / rate <= shown / rate <= exact + 0.005 / rate
  {
    var h, moved := 0.005 / rate, exact * rate;
    QuotientAtMost(0.005, 0.0, rate);
    Distribute(exact, h, rate);
    var up, down := (exact + h) * rate, (exact - h) * rate;
    assert up == moved + 0.005 && down == moved - 0.005;
    QuotientAtMost(shown, exact + h, rate);
    QuotientAtMost(shown, exact - h, rate);
  }

  lemma QuotientPositive(x: real, r: real)
    requires x > 0.0 && r > 0.0
    ensures x / r > 0.0 && x * r > 0.0
  {
  }

  // The submitted price after a switch, from the exact dollars both sides round.
  lemma SubmittedAfter(exact: real, rate: real)
    requires exact > 0.0 && rate > 0.0
    ensures var after := LocalToUsd(Format(Times(exact, rate)), Some(rate));
            (after == 0.0 && exact <= 0.005 / rate) ||
            (exact - 0.005 - 0.005 / rate <= after <= exact + 0.005 + 0.005 / rate) ||
            (after == 0.01 && exact < 0.005 + 0.005 / rate)
  {
    var moved := exact * rate;
    var shown := R2(moved);
    RoundsToNearest(moved);
    RescaledError(exact, rate, shown);
    if shown > 0.0 {
      SubmittedNear(shown, rate);
    } else {
      QuotientAtMost(shown, 0.0, rate);
    }
  }

  // Switching an edited amount between two known rates moves the submitted price by at most a cent and a half
  // plus half of the new currency's smallest unit.
  lemma SwitchMovesLittle(local: real, from_: string, to_: string, rates: Rates)
    requires local > 0.0 && RateFor(from_, rates).Some? && RateFor(to_, rates).Some?
    ensures var before := LocalToUsd(Amount(local), RateFor(from_, rates));
            var after := LocalToUsd(Convert(Amount(local), from_, to_, rates), RateFor(to_, rates));
            var bound := 0.015 + 0.005 / RateFor(to_, rates).value; before - bound <= after <= before + bound
  {
    hide LocalToUsd, R2;
    var r1, r2 := RateFor(from_, rates).value, RateFor(to_, rates).value;
    var exact := Over(local, r1);
    QuotientPositive(local, r1);
    QuotientPositive(0.005, r2);
    SubmittedNear(local, r1);
    SubmittedAfter(exact, r2);
    Together(LocalToUsd(Amount(local), Some(r1)), LocalToUsd(Format(Times(exact, r2)), Some(r2)), exact, 0.005 / r2);
  }

  lemma Together(before: real, after: real, exact: real, half: real)
    requires half > 0.0 && exact > 0.0 && before >= 0.01
    requires -0.005 < before - exact && (before - exact <= 0.005 || (before == 0.01 && exact < 0.005))
    requires (after == 0.0 && exact <= half) || (exact - 0.005 - half <= after <= exact + 0.005 + half) ||
             (after == 0.01 && exact < 0.005 + half)
    ensures before - 0.015 - half <= after <= before + 0.015 + half
  {
  }

  // A typed price is never submitted as free...
  lemma TypedIsNeverFree(local: real, rate: real)
    requires local > 0.0 && rate > 0.0
    ensures LocalToUsd(Amount(local), Some(rate)) >= 0.01
  {
  }

  // ...but a switch can make it so: exactly when its worth is under half of the new currency's smallest unit, the
  // field shows zero and zero is submitted.
  lemma SwitchedIsFreeExactlyWhen(local: real, from_: string, to_: string, rates: Rates)
    requires local > 0.0 && RateFor(from_, rates).Some? && RateFor(to_, rates).Some?
    ensures LocalToUsd(Convert(Amount(local), from_, to_, rates), RateFor(to_, rates)) == 0.0 <==>
              Times(Over(local, RateFor(from_, rates).value), RateFor(to_, rates).value) < 0.005
  {
    var r1, r2 := RateFor(from_, rates).value, RateFor(to_, rates).value;
    QuotientPositive(local, r1);
    hide LocalToUsd, R2;
    QuotientPositive(local / r1, r2);
    FreeAt(Times(Over(local, r1), r2), r2);
  }

  lemma FreeAt(moved: real, rate: real)
    requires moved > 0.0 && rate > 0.0
    ensures LocalToUsd(Format(moved), Some(rate)) == 0.0 <==> moved < 0.005
  {
  }

  // ---------------------------------------------------------------- read off the rate table

  // One US dollar is this many units of the code: one for the dollar itself, else a positive entry of the table.
  predicate Priced(code: string, rates: Rates, rate: real) {
    if code == "USD" then rate == 1.0 else code in rates && rates[code] == rate && rate > 0.0
  }

  predicate Unpriced(code: string, rates: Rates) { code != "USD" && (code !in rates || rates[code] <= 0.0) }

  lemma RateIsTheTables(code: string, rates: Rates, rate: real)
    ensures RateFor(code, rates) == Some(rate) <==> Priced(code, rates, rate)
    ensures RateFor(code, rates) == None <==> Unpriced(code, rates)
  {
  }

  // A typed amount is submitted as its worth in dollars at the table's rate, to the nearest cent and at least one.
  lemma SubmittedAtTheTable(v: real, code: string, rates: Rates, rate: real)
    requires v > 0.0 && Priced(code, rates, rate)
    ensures var usd := LocalToUsd(Amount(v), RateFor(code, rates));
            usd >= 0.01 && -0.005 < usd - v / rate && (usd - v / rate <= 0.005 || (usd == 0.01 && v / rate < 0.005))
  {
    RateIsTheTables(code, rates, rate);
    SubmittedNear(v, rate);
  }

  // Whole cents typed in dollars are those cents.
  lemma DollarsAsTyped(cents: int, rates: Rates)
    requires cents > 0
    ensures LocalToUsd(Amount(cents as real / 100.0), RateFor("USD", rates)) == cents as real / 100.0
  {
    WholeAtOne(cents);
    assert Over(cents as real / 100.0, 1.0) == cents as real / 100.0;
  }

  // No rate, nothing typed, nothing positive: nothing is asked for.
  lemma WithoutRateNothing(v: Typed, code: string, rates: Rates)
    requires Unpriced(code, rates) || !v.Amount? || v.value <= 0.0
    ensures LocalToUsd(v, RateFor(code, rates)) == 0.0
  {
  }

  // A dollar price is shown multiplied by the table's rate, to the nearest hundredth.
  lemma ShownAtTheTable(usd: real, code: string, rates: Rates, rate: real)
    requires usd > 0.0 && Priced(code, rates, rate)
    ensures var w := UsdToLocal(usd, RateFor(code, rates)); w.Amount? && -0.005 < w.value - usd * rate <= 0.005
  {
    RateIsTheTables(code, rates, rate);
    RoundsToNearest(Times(usd, rate));
  }

  // No dollars, or no rate, is shown as blank.
  lemma ShownBlank(usd: real, code: string, rates: Rates)
    ensures usd <= 0.0 || Unpriced(code, rates) ==> UsdToLocal(usd, RateFor(code, rates)) == Blank
    ensures forall rate: real :: rate <= 0.0 ==> UsdToLocal(usd, Some(rate)) == Blank
    ensures forall rate: real :: rate <= 0.0 ==> LocalToUsd(Amount(usd), Some(rate)) == 0.0
  {
  }

  // An amount moved to another currency is divided by the rate it was typed at and multiplied by the new one, to the
  // nearest hundredth; blank when either is missing, and as it was when it is no positive number.
  lemma ConvertedAtTheTable(v: Typed, from_: string, to_: string, rates: Rates, r1: real, r2: real)
    requires v.Amount? && v.value > 0.0 && Priced(from_, rates, r1) && Priced(to_, rates, r2)
    ensures var w := Convert(v, from_, to_, rates); w.Amount? && -0.005 < w.value - v.value / r1 * r2 <= 0.005
  {
    RateIsTheTables(from_, rates, r1);
    RateIsTheTables(to_, rates, r2);
    RoundsToNearest(Times(Over(v.value, r1), r2));
  }

  lemma NotConverted(v: Typed, from_: string, to_: string, rates: Rates)
    ensures !v.Amount? || v.value <= 0.0 ==> Convert(v, from_, to_, rates) == v
    ensures v.Amount? && v.value > 0.0 && (Unpriced(from_, rates) || Unpriced(to_, rates)) ==>
              Convert(v, from_, to_, rates) == Blank
  {
  }
}
