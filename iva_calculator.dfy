/**
 * The two-mode IVA (value-added tax) calculator: "add" turns a base price into a
 * tax-inclusive price, "remove" turns a tax-inclusive price back into its base.
 * Each mode writes the tax portion into `ivaAmount`.
 */
module IvaCalculator {
  import opened Wrappers
  import opened Rounding

  /** Colombia's general IVA rate, 19%. */
  const IvaRate: real := 0.19

  datatype Mode = Add | Remove

  /**
   * A price text field, seen through `Number.parseFloat`: empty, or typed text
   * together with what parsing makes of it (None for NaN).
   */
  datatype NumberText = Blank | Typed(parsed: Option<real>)

  /** The text written by `x.toString()`; parsing it gives `x` back. */
  function Shown(x: real): NumberText
  {
    Typed(Some(x))
  }

  /** The numeric value a non-empty, parsable field holds, if any. */
  function Entered(t: NumberText): Option<real>
  {
    if t.Typed? then t.parsed else None
  }

  // ---- add mode: base -> base + IVA ----

  /** The tax charged on a base price. */
  function IvaOnBase(base: real): real
  {
    base * IvaRate
  }

  /** The tax-inclusive price of a base price. */
  function PriceWithIva(base: real): (total: real)
    ensures total == 1.19 * base
    ensures BaseFromTotal(total) == base
  {
    base + IvaOnBase(base)
  }

  // ---- remove mode: total -> total / (1 + IVA) ----

  /** The base price contained in a tax-inclusive price. */
  function BaseFromTotal(total: real): (base: real)
    ensures base * (1.0 + IvaRate) == total
  {
    total / (1.0 + IvaRate)
  }

  /** The tax contained in a tax-inclusive price. */
  function IvaInTotal(total: real): (iva: real)
    ensures iva == total * (19.0 / 119.0)
    ensures iva == IvaOnBase(BaseFromTotal(total))
  {
    total - BaseFromTotal(total)
  }

  /** Removing IVA from a price with IVA added restores the base, and both modes report the same tax. */
  lemma AddThenRemove(base: real)
    ensures BaseFromTotal(PriceWithIva(base)) == base
    ensures IvaInTotal(PriceWithIva(base)) == IvaOnBase(base)
  {
  }

  /** Adding IVA to the base recovered from a total restores the total, and both modes report the same tax. */
  lemma RemoveThenAdd(total: real)
    ensures PriceWithIva(BaseFromTotal(total)) == total
    ensures IvaOnBase(BaseFromTotal(total)) == IvaInTotal(total)
  {
  }

  /** A non-negative base has a non-negative tax and a total no smaller than itself. */
  lemma AddNonNegative(base: real)
    requires base >= 0.0
    ensures 0.0 <= IvaOnBase(base)
    ensures base <= PriceWithIva(base)
  {
  }

  /** A non-negative total splits into a base and a tax that are both non-negative and at most the total. */
  lemma RemoveNonNegative(total: real)
    requires total >= 0.0
    ensures 0.0 <= BaseFromTotal(total) <= total
    ensures 0.0 <= IvaInTotal(total) <= total
  {
  }

  /** 100000 plus IVA is 119000, of which 19000 is tax. */
  lemma AddExample()
    ensures IvaOnBase(100000.0) == 19000.0
    ensures PriceWithIva(100000.0) == 119000.0
  {
  }

  /**
   * The calculator screen. Every handler runs the effects React would run
   * after it: editing a field re-runs that field's effect, and a change of
   * mode re-runs both.
   */
  class Calculator {
    var basePrice: NumberText
    var priceWithIva: NumberText
    var ivaAmount: real
    var mode: Mode

    /** In add mode, a parsable base is shown with its tax and its tax-inclusive price. */
    ghost predicate ShowsAddResult()
      reads this
    {
      mode == Add && Entered(basePrice).Some? ==>
        var base := Entered(basePrice).value;
        ivaAmount == IvaOnBase(base) && priceWithIva == Shown(PriceWithIva(base))
    }

    /** In remove mode, a parsable total is shown with its tax and its base. */
    ghost predicate ShowsRemoveResult()
      reads this
    {
      mode == Remove && Entered(priceWithIva).Some? ==>
        var total := Entered(priceWithIva).value;
        ivaAmount == IvaInTotal(total) && basePrice == Shown(BaseFromTotal(total))
    }

    /** The figures on screen agree with the number entered in the active mode. */
    ghost predicate Consistent()
      reads this
    {
      ShowsAddResult() && ShowsRemoveResult()
    }

    constructor ()
      ensures basePrice == Blank && priceWithIva == Blank
      ensures ivaAmount == 0.0 && mode == Add
      ensures Consistent()
    {
      basePrice, priceWithIva := Blank, Blank;
      ivaAmount := 0.0;
      mode := Add;
    }

    /** `calculateWithIVA`: writes the tax and the tax-inclusive price of `base`. */
    method CalculateWithIva(base: real)
      modifies this`ivaAmount, this`priceWithIva
      ensures ivaAmount == IvaOnBase(base)
      ensures priceWithIva == Shown(PriceWithIva(base))
    {
      var iva := base * IvaRate;
      var total := base + iva;
      ivaAmount := iva;
      priceWithIva := Shown(total);
    }

    /** `calculateWithoutIVA`: writes the tax and the base contained in `total`. */
    method CalculateWithoutIva(total: real)
      modifies this`ivaAmount, this`basePrice
      ensures ivaAmount == IvaInTotal(total)
      ensures basePrice == Shown(BaseFromTotal(total))
    {
      var base := total / (1.0 + IvaRate);
      var iva := total - base;
      ivaAmount := iva;
      basePrice := Shown(base);
    }

    /** The effect on `basePrice`: in add mode, a non-empty parsable base is converted. */
    method AddModeEffect()
      modifies this`ivaAmount, this`priceWithIva
      ensures ShowsAddResult()
      ensures mode == Add && Entered(basePrice).Some? ==>
                ivaAmount == IvaOnBase(Entered(basePrice).value) &&
                priceWithIva == Shown(PriceWithIva(Entered(basePrice).value))
      ensures !(mode == Add && Entered(basePrice).Some?) ==>
                ivaAmount == old(ivaAmount) && priceWithIva == old(priceWithIva)
    {
      if mode == Add && basePrice != Blank {
        var base := basePrice.parsed;
        if base.Some? {
          CalculateWithIva(base.value);
        }
      }
    }

    /** The effect on `priceWithIva`: in remove mode, a non-empty parsable total is converted. */
    method RemoveModeEffect()
      modifies this`ivaAmount, this`basePrice
      ensures ShowsRemoveResult()
      ensures mode == Remove && Entered(priceWithIva).Some? ==>
                ivaAmount == IvaInTotal(Entered(priceWithIva).value) &&
                basePrice == Shown(BaseFromTotal(Entered(priceWithIva).value))
      ensures !(mode == Remove && Entered(priceWithIva).Some?) ==>
                ivaAmount == old(ivaAmount) && basePrice == old(basePrice)
    {
      if mode == Remove && priceWithIva != Blank {
        var total := priceWithIva.parsed;
        if total.Some? {
          CalculateWithoutIva(total.value);
        }
      }
    }

    /** Typing into the base-price field; its effect runs when the text changes. */
    method EditBasePrice(text: NumberText)
      modifies this`basePrice, this`ivaAmount, this`priceWithIva
      ensures basePrice == text && mode == old(mode)
      ensures text != old(basePrice) || old(ShowsAddResult()) ==> ShowsAddResult()
      ensures text == old(basePrice) || !(mode == Add && Entered(text).Some?) ==>
                ivaAmount == old(ivaAmount) && priceWithIva == old(priceWithIva)
    {
      if text != basePrice {
        basePrice := text;
        AddModeEffect();
      }
    }

    /** Typing into the tax-inclusive price field; its effect runs when the text changes. */
    method EditPriceWithIva(text: NumberText)
      modifies this`priceWithIva, this`ivaAmount, this`basePrice
      ensures priceWithIva == text && mode == old(mode)
      ensures text != old(priceWithIva) || old(ShowsRemoveResult()) ==> ShowsRemoveResult()
      ensures text == old(priceWithIva) || !(mode == Remove && Entered(text).Some?) ==>
                ivaAmount == old(ivaAmount) && basePrice == old(basePrice)
    {
      if text != priceWithIva {
        priceWithIva := text;
        RemoveModeEffect();
      }
    }

    /** Switching tabs: when the mode changes, both effects run and the new mode's input is converted. */
    method SelectMode(m: Mode)
      modifies this`mode, this`basePrice, this`priceWithIva, this`ivaAmount
      ensures mode == m
      ensures old(mode) != m ==> Consistent()
      ensures old(mode) != m && m == Add ==>
                basePrice == old(basePrice) &&
                if Entered(basePrice).Some? then
                  ivaAmount == IvaOnBase(Entered(basePrice).value) &&
                  priceWithIva == Shown(PriceWithIva(Entered(basePrice).value))
                else ivaAmount == old(ivaAmount) && priceWithIva == old(priceWithIva)
      ensures old(mode) != m && m == Remove ==>
                priceWithIva == old(priceWithIva) &&
                if Entered(priceWithIva).Some? then
                  ivaAmount == IvaInTotal(Entered(priceWithIva).value) &&
                  basePrice == Shown(BaseFromTotal(Entered(priceWithIva).value))
                else ivaAmount == old(ivaAmount) && basePrice == old(basePrice)
      ensures old(mode) == m ==>
                basePrice == old(basePrice) && priceWithIva == old(priceWithIva) && ivaAmount == old(ivaAmount)
    {
      if m != mode {
        mode := m;
        AddModeEffect();
        RemoveModeEffect();
      }
    }

    /** `clearAll`: both fields emptied and the tax reset; the mode stays. */
    method ClearAll()
      modifies this`basePrice, this`priceWithIva, this`ivaAmount
      ensures basePrice == Blank && priceWithIva == Blank && ivaAmount == 0.0
      ensures mode == old(mode)
      ensures Consistent()
    {
      basePrice := Blank;
      priceWithIva := Blank;
      ivaAmount := 0.0;
    }

    /**
     * The suggested-price button `i`: add mode with that preset as the base.
     * The effect runs only when the mode or the base text actually changes;
     * clicking the preset already shown changes nothing else.
     */
    method PickSuggestedPrice(i: nat)
      requires i < |SuggestedBases|
      modifies this`mode, this`basePrice, this`priceWithIva, this`ivaAmount
      ensures mode == Add && basePrice == Shown(SuggestedBases[i])
      ensures old(mode) != Add || old(basePrice) != Shown(SuggestedBases[i]) ==>
                ivaAmount == IvaOnBase(SuggestedBases[i]) &&
                priceWithIva == Shown(PriceWithIva(SuggestedBases[i])) &&
                Consistent()
      ensures old(mode) == Add && old(basePrice) == Shown(SuggestedBases[i]) ==>
                ivaAmount == old(ivaAmount) && priceWithIva == old(priceWithIva)
      ensures old(Consistent()) ==> Consistent()
    {
      var changed := mode != Add || basePrice != Shown(SuggestedBases[i]);
      mode := Add;
      basePrice := Shown(SuggestedBases[i]);
      if changed {
        AddModeEffect();
      }
    }
  }

  /** The bases of the suggested-price buttons ("Pequeña", "Mediana", "Grande", "Premium"). */
  const SuggestedBases: seq<real> := [15000.0, 35000.0, 65000.0, 120000.0]

  /** The "+IVA" preview printed on a suggested-price button. */
  function PresetPreview(base: real): int
  {
    Round(base * 1.19)
  }

  /** Each button's preview is the rounded final price the calculator shows after picking it. */
  lemma PresetPreviewMatchesResult(i: nat)
    requires i < |SuggestedBases|
    ensures PresetPreview(SuggestedBases[i]) == Round(PriceWithIva(SuggestedBases[i]))
  {
  }

  /** Adding IVA in one mode and switching to the other shows the original base again. */
  method SwitchRoundTrip(base: real) returns (c: Calculator)
    ensures c.mode == Remove
    ensures c.basePrice == Shown(base) && c.ivaAmount == IvaOnBase(base)
  {
    c := new Calculator();
    c.EditBasePrice(Shown(base));
    c.SelectMode(Remove);
    AddThenRemove(base);
  }
}
