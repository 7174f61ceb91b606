/**
 * The tax-obligation module: whether a monthly income obliges the merchant to
 * file IVA (1400 UVT a year, at the 2024 UVT of 47065), a projection of a
 * bimonthly IVA payment over a year, and the style and label mappings of the
 * tax reminders.
 */
module DianModule {
  import opened Wrappers
  import opened Rounding
  import opened Lists

  /** The value of one UVT (tax value unit) in 2024. */
  const UvtValue: real := 47065.0
  /** The yearly income, in UVT, from which IVA must be declared. */
  const ThresholdUvt: real := 1400.0

  datatype Obligation = Obligation(annualIncome: real, threshold: real, isObligated: bool, monthsToThreshold: int)

  /** The monthly income is never 0 where the months-to-threshold division needs it. */
  predicate IncomeUsable(income: Option<real>)
  {
    income.Some? && income.value * 12.0 < UvtValue * ThresholdUvt ==> income.value != 0.0
  }

  /** `calculateIVAObligation`: yearly income against the threshold, or None when the income does not parse. */
  function IvaObligation(income: Option<real>): (o: Option<Obligation>)
    requires IncomeUsable(income)
    ensures o.None? <==> income.None?
    ensures o.Some? ==> o.value.annualIncome == 12.0 * income.value
    ensures o.Some? ==> o.value.threshold == 65891000.0
    ensures o.Some? ==> (o.value.isObligated <==> o.value.annualIncome >= o.value.threshold)
    ensures o.Some? && o.value.isObligated ==> o.value.monthsToThreshold == 0
  {
    if income.None? then None
    else
      var monthly := income.value;
      var annualIncome := monthly * 12.0;
      var threshold := UvtValue * ThresholdUvt;
      Some(Obligation(
        annualIncome,
        threshold,
        annualIncome >= threshold,
        if annualIncome < threshold then Ceil((threshold - annualIncome) / monthly) else 0))
  }

  /** An income of exactly the threshold over the year is obliged to file: the boundary is inclusive. */
  lemma ThresholdIsInclusive()
    ensures IvaObligation(Some(65891000.0 / 12.0)).value.isObligated
  {
  }

  /**
   * For a positive income below the threshold, `monthsToThreshold` is at least 1
   * and is the least number of further months of that income that brings the
   * yearly income up to the threshold.
   */
  lemma MonthsToThresholdIsLeast(monthly: real, m: int)
    requires monthly > 0.0 && monthly * 12.0 < UvtValue * ThresholdUvt
    ensures var o := IvaObligation(Some(monthly)).value;
            o.monthsToThreshold >= 1 &&
            o.annualIncome + o.monthsToThreshold as real * monthly >= o.threshold &&
            (0 <= m < o.monthsToThreshold ==> o.annualIncome + m as real * monthly < o.threshold)
  {
    var o := IvaObligation(Some(monthly)).value;
    var gap := o.threshold - o.annualIncome;
    var x := gap / monthly;
    var n := o.monthsToThreshold;
    assert n == Ceil(x);
    assert x * monthly == gap;
    assert x > 0.0;
    assert n as real >= x;
    assert n as real * monthly >= gap by {
      assert (n as real - x) * monthly >= 0.0;
    }
    if 0 <= m < n {
      assert (m as real) < x;
      assert m as real * monthly < gap by {
        assert (x - m as real) * monthly > 0.0;
      }
    }
  }

  datatype BimonthlyProjection = BimonthlyProjection(bimonthlyIva: real, annualIva: real, nextPayment: real, dueDate: string)

  /** The year's six bimonthly IVA payments, each of the same amount. */
  function YearOfPayments(iva: real): (payments: seq<real>)
    ensures |payments| == 6
    ensures forall i :: 0 <= i < |payments| ==> payments[i] == iva
  {
    [iva, iva, iva, iva, iva, iva]
  }

  /** A payment's amount, so that `Sum` can add up a list of plain amounts. */
  function Amount(x: real): real
  {
    x
  }

  /** Six payments of the same amount add up to six times that amount. */
  lemma YearOfPaymentsTotal(iva: real)
    ensures Sum(YearOfPayments(iva), Amount) == 6.0 * iva
  {
    var payments := YearOfPayments(iva);
    forall x | x in payments
      ensures iva <= Amount(x) <= iva
    {
    }
    SumBounds(payments, Amount, iva, iva);
  }

  /**
   * `calculateBimonthlyIVA`: one bimonthly payment projected over a year, or
   * None when it does not parse. The yearly figure is what the year's six
   * payments add up to, and the next payment is one of them.
   */
  function BimonthlyIva(iva: Option<real>): (p: Option<BimonthlyProjection>)
    ensures p.None? <==> iva.None?
    ensures p.Some? ==>
              p.value.annualIva == Sum(YearOfPayments(iva.value), Amount) &&
              p.value.nextPayment in YearOfPayments(iva.value) &&
              p.value.bimonthlyIva == iva.value &&
              p.value.dueDate == "17 de enero, 2025"
  {
    if iva.None? then None
    else
      YearOfPaymentsTotal(iva.value);
      Some(BimonthlyProjection(iva.value, iva.value * 6.0, iva.value, "17 de enero, 2025"))
  }

  // ---- reminder styles and labels ----

  /** `getStatusColor`: the card style of a reminder status, grey for anything unknown. */
  function StatusColor(status: string): string
  {
    match status
    case "completed" => "text-green-600 bg-green-50 border-green-200"
    case "pending" => "text-yellow-600 bg-yellow-50 border-yellow-200"
    case "overdue" => "text-red-600 bg-red-50 border-red-200"
    case _ => "text-gray-600 bg-gray-50 border-gray-200"
  }

  /** `getPriorityColor`: the badge style of a priority, grey for anything unknown. */
  function PriorityColor(priority: string): string
  {
    match priority
    case "high" => "bg-red-100 text-red-800"
    case "medium" => "bg-yellow-100 text-yellow-800"
    case "low" => "bg-green-100 text-green-800"
    case _ => "bg-gray-100 text-gray-800"
  }

  /** The badge text of a priority: anything that is not high or medium reads "Baja". */
  function PriorityLabel(priority: string): string
  {
    if priority == "high" then "Alta" else if priority == "medium" then "Media" else "Baja"
  }

  const KnownStatuses: seq<string> := ["completed", "pending", "overdue"]
  const KnownPriorities: seq<string> := ["high", "medium", "low"]

  /** Each known status has its own style, and every other string gets the grey default. */
  lemma StatusColorsDistinguishStatuses(s: string, t: string)
    ensures s in KnownStatuses && t in KnownStatuses && s != t ==> StatusColor(s) != StatusColor(t)
    ensures s in KnownStatuses ==> StatusColor(s) != StatusColor("")
    ensures s !in KnownStatuses ==> StatusColor(s) == "text-gray-600 bg-gray-50 border-gray-200"
  {
    if s !in KnownStatuses {
      assert s != "completed" && s != "pending" && s != "overdue";
    }
  }

  /** Each known priority has its own style, and every other string gets the grey default. */
  lemma PriorityColorsDistinguishPriorities(s: string, t: string)
    ensures s in KnownPriorities && t in KnownPriorities && s != t ==> PriorityColor(s) != PriorityColor(t)
    ensures s in KnownPriorities ==> PriorityColor(s) != PriorityColor("")
    ensures s !in KnownPriorities ==> PriorityColor(s) == "bg-gray-100 text-gray-800"
  {
  }

  /** The label tells high and medium apart from everything else, which is shown as low. */
  lemma PriorityLabelCases(s: string)
    ensures PriorityLabel(s) == "Alta" <==> s == "high"
    ensures PriorityLabel(s) == "Media" <==> s == "medium"
    ensures PriorityLabel(s) == "Baja" <==> s != "high" && s != "medium"
  {
  }
}
