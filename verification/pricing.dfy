/** The quotation engine: what one certification adds to the subtotal and to
    the license count, the unit price shown next to it, and the totals over
    the enabled certifications. */
module Pricing {
  import opened Optional
  import opened Arith
  import opened Sums
  import opened Catalog

  /** The four numbers of the quote summary; `tax` and `total` are exact. */
  datatype Totals = Totals(subtotal: int, tax: real, total: real, totalLicenses: int)

  /** The guard every pricing path starts with: sub-options exist and the
      selection is present and non-empty. An empty `subOptions` list counts
      as present, as an empty array is truthy. */
  predicate HasSelection(c: Certification) {
    c.subOptions.Some? && c.selectedSubOptions.Some? && |c.selectedSubOptions.value| > 0
  }

  /** The hard-wired Advance Security combination. */
  predicate ComboActive(c: Certification) {
    && HasSelection(c)
    && c.id == AdvanceSecurityId
    && CodeSecurityId in c.selectedSubOptions.value
    && SecretSecurityId in c.selectedSubOptions.value
  }

  /** `opts.find(o => o.id === id)?.licenses || fallback`. */
  function LicensesOf(opts: seq<SubOption>, id: string, fallback: int): int {
    match FindSubOption(opts, id)
    case None => fallback
    case Some(o) => OrElse(o.licenses, fallback)
  }

  /** The quantity of the combination: the larger of the two options'. */
  function ComboLicenses(opts: seq<SubOption>): int {
    Max(LicensesOf(opts, CodeSecurityId, CodeSecurityFallback),
        LicensesOf(opts, SecretSecurityId, SecretSecurityFallback))
  }

  /** What one selected id adds to the subtotal: `price * (licenses || 20)`,
      or 0 for an id no option carries. */
  function CostOf(opts: seq<SubOption>): string -> int {
    id =>
      match FindSubOption(opts, id)
      case None => 0
      case Some(o) => o.pricePerLicense * OrElse(o.licenses, SubOptionFallback)
  }

  /** What one selected id adds to the license count: `licenses || 20`. */
  function CountOf(opts: seq<SubOption>): string -> int {
    id => LicensesOf(opts, id, SubOptionFallback)
  }

  /** What one selected id adds to the displayed unit price. */
  function PriceOf(opts: seq<SubOption>): string -> int {
    id =>
      match FindSubOption(opts, id)
      case None => 0
      case Some(o) => o.pricePerLicense
  }

  /** The certification's contribution to the subtotal. */
  function LineTotal(c: Certification): int {
    if HasSelection(c) then
      if ComboActive(c) then ComboLicenses(c.subOptions.value) * ComboPrice
      else Sum(c.selectedSubOptions.value, CostOf(c.subOptions.value))
    else c.licenses * c.pricePerLicense
  }

  /** The certification's contribution to the license count. */
  function LineLicenses(c: Certification): int {
    if HasSelection(c) then
      if ComboActive(c) then ComboLicenses(c.subOptions.value)
      else Sum(c.selectedSubOptions.value, CountOf(c.subOptions.value))
    else c.licenses
  }

  /** `getCurrentPrice`: the unit price shown in the certification header. */
  function CurrentPrice(c: Certification): int {
    if HasSelection(c) then
      if ComboActive(c) then ComboPrice
      else Sum(c.selectedSubOptions.value, PriceOf(c.subOptions.value))
    else c.pricePerLicense
  }

  /** `certifications.filter(cert => cert.enabled)`. */
  function EnabledCerts(certs: seq<Certification>): (r: seq<Certification>)
    ensures forall c :: c in r <==> c in certs && c.enabled
    ensures |r| <= |certs|
  {
    if |certs| == 0 then []
    else if certs[0].enabled then [certs[0]] + EnabledCerts(certs[1..])
    else EnabledCerts(certs[1..])
  }

  function Subtotal(certs: seq<Certification>): int {
    Sum(EnabledCerts(certs), LineTotal)
  }

  function TotalLicenses(certs: seq<Certification>): int {
    Sum(EnabledCerts(certs), LineLicenses)
  }

  /** The totals the quote summary shows for the current certifications. */
  function Quote(certs: seq<Certification>): (r: Totals)
    ensures 100.0 * r.tax == (TaxPercent as real) * (r.subtotal as real)
    ensures r.total == r.subtotal as real + r.tax
    ensures (forall i :: 0 <= i < |certs| ==> !certs[i].enabled) ==> r == Totals(0, 0.0, 0.0, 0)
  {
    var subtotal := Subtotal(certs);
    var tax := subtotal as real * (TaxPercent as real / 100.0);
    Totals(subtotal, tax, subtotal as real + tax, TotalLicenses(certs))
  }

  // ---------------------------------------------------------------------
  // One certification
  // ---------------------------------------------------------------------

  /** The combination is on exactly when Advance Security has sub-options and
      both security ids are selected; one of the two alone never turns it on. */
  lemma ComboActiveExactly(c: Certification)
    ensures ComboActive(c) <==>
      && c.id == AdvanceSecurityId
      && c.subOptions.Some?
      && c.selectedSubOptions.Some?
      && CodeSecurityId in c.selectedSubOptions.value
      && SecretSecurityId in c.selectedSubOptions.value
  {
  }

  /** Whatever the order of the selection and whatever else it holds, once
      both security ids are in it Advance Security is priced as the
      combination: its larger quantity at 49 per license. */
  lemma ComboPricing(c: Certification, sel: seq<string>)
    requires c.id == AdvanceSecurityId && c.subOptions.Some?
    requires CodeSecurityId in sel && SecretSecurityId in sel
    ensures var c' := c.(selectedSubOptions := Some(sel));
      && ComboActive(c')
      && LineTotal(c') == Max(LicensesOf(c.subOptions.value, CodeSecurityId, 30),
                              LicensesOf(c.subOptions.value, SecretSecurityId, 50)) * 49
      && LineLicenses(c') == Max(LicensesOf(c.subOptions.value, CodeSecurityId, 30),
                                 LicensesOf(c.subOptions.value, SecretSecurityId, 50))
      && CurrentPrice(c') == 49
  {
  }

  /** Without sub-options, or with an empty or missing selection, the
      certification is priced from its own licenses and price. */
  lemma PlainPricing(c: Certification)
    requires c.subOptions.None? || c.selectedSubOptions.None? || c.selectedSubOptions == Some([])
    ensures LineTotal(c) == c.licenses * c.pricePerLicense
    ensures LineLicenses(c) == c.licenses
    ensures CurrentPrice(c) == c.pricePerLicense
  {
  }

  /** Outside the combination, selecting one more id adds that option's
      `price * (licenses || 20)` to the subtotal, `licenses || 20` to the
      count, and its price to the displayed unit price. */
  lemma SelectOneMore(c: Certification, id: string)
    requires HasSelection(c)
    requires var c' := c.(selectedSubOptions := Some(c.selectedSubOptions.value + [id]));
      !ComboActive(c) && !ComboActive(c')
    ensures var c' := c.(selectedSubOptions := Some(c.selectedSubOptions.value + [id]));
      var opts := c.subOptions.value;
      && LineTotal(c') == LineTotal(c) + CostOf(opts)(id)
      && LineLicenses(c') == LineLicenses(c) + CountOf(opts)(id)
      && CurrentPrice(c') == CurrentPrice(c) + PriceOf(opts)(id)
  {
    var sel := c.selectedSubOptions.value;
    var opts := c.subOptions.value;
    SumSnoc(sel, id, CostOf(opts));
    SumSnoc(sel, id, CountOf(opts));
    SumSnoc(sel, id, PriceOf(opts));
  }

  /** Outside the combination, a selection of one id is charged that
      option's `price * (licenses || 20)`, counts its `licenses || 20` and
      shows its price; with SelectOneMore this fixes the per-option sum. */
  lemma SingleSelection(c: Certification, id: string)
    requires c.subOptions.Some? && c.selectedSubOptions == Some([id])
    requires !ComboActive(c)
    ensures var opts := c.subOptions.value;
      && LineTotal(c) == CostOf(opts)(id)
      && LineLicenses(c) == CountOf(opts)(id)
      && CurrentPrice(c) == PriceOf(opts)(id)
  {
    var opts := c.subOptions.value;
    SumSingleton(id, CostOf(opts));
    SumSingleton(id, CountOf(opts));
    SumSingleton(id, PriceOf(opts));
  }

  /** A selected id that names no sub-option adds nothing to the subtotal or
      to the unit price, but 20 to the license count. */
  lemma UnknownIdCounts20(c: Certification, id: string)
    requires HasSelection(c)
    requires forall k :: 0 <= k < |c.subOptions.value| ==> c.subOptions.value[k].id != id
    requires var c' := c.(selectedSubOptions := Some(c.selectedSubOptions.value + [id]));
      !ComboActive(c) && !ComboActive(c')
    ensures var c' := c.(selectedSubOptions := Some(c.selectedSubOptions.value + [id]));
      && LineTotal(c') == LineTotal(c)
      && LineLicenses(c') == LineLicenses(c) + 20
      && CurrentPrice(c') == CurrentPrice(c)
  {
    SelectOneMore(c, id);
  }

  /** The order of the selected ids never changes the price: two selections
      holding the same ids, as many times each, give the same line total,
      license count and unit price. */
  lemma SelectionOrderIrrelevant(c: Certification, sel: seq<string>)
    requires c.selectedSubOptions.Some?
    requires multiset(sel) == multiset(c.selectedSubOptions.value)
    ensures var c' := c.(selectedSubOptions := Some(sel));
      && LineTotal(c') == LineTotal(c)
      && LineLicenses(c') == LineLicenses(c)
      && CurrentPrice(c') == CurrentPrice(c)
  {
    var old_sel := c.selectedSubOptions.value;
    assert |sel| == |multiset(sel)| == |old_sel|;
    assert forall x :: x in sel <==> x in multiset(sel);
    assert forall x :: x in old_sel <==> x in multiset(old_sel);
    if c.subOptions.Some? {
      var opts := c.subOptions.value;
      SumPermutation(sel, old_sel, CostOf(opts));
      SumPermutation(sel, old_sel, CountOf(opts));
      SumPermutation(sel, old_sel, PriceOf(opts));
    }
  }

  /** With a single known option selected, the money total is the displayed
      unit price times the displayed license count. */
  lemma SingleSelectionConsistent(c: Certification, o: SubOption)
    requires c.subOptions.Some? && o in c.subOptions.value
    requires c.selectedSubOptions == Some([o.id])
    requires !ComboActive(c)
    ensures LineTotal(c) == CurrentPrice(c) * LineLicenses(c)
  {
    var opts := c.subOptions.value;
    assert FindSubOption(opts, o.id).Some?;
    SumSingleton(o.id, CostOf(opts));
    SumSingleton(o.id, CountOf(opts));
    SumSingleton(o.id, PriceOf(opts));
  }

  /** With two non-combined options selected the displayed unit price is the
      sum of their prices, and unit price times license count is no longer
      the money total: two Copilot plans at 20 licenses each cost 1160 while
      58 * 40 = 2320. */
  lemma StackedPriceDiverges()
    ensures var c := Copilot.(selectedSubOptions := Some([CopilotEnterpriseId, CopilotBusinessId]));
      && LineTotal(c) == 1160
      && LineLicenses(c) == 40
      && CurrentPrice(c) == 58
  {
    var opts := Copilot.subOptions.value;
    var sel := [CopilotEnterpriseId, CopilotBusinessId];
    assert CopilotEnterpriseId != CopilotBusinessId by {
      assert CopilotEnterpriseId[8] != CopilotBusinessId[8];
    }
    assert FindIndex(opts, CopilotEnterpriseId) == 0;
    assert FindIndex(opts[1..], CopilotBusinessId) == 0;
    assert FindIndex(opts, CopilotBusinessId) == 1;
    assert FindSubOption(opts, CopilotEnterpriseId) == Some(opts[0]);
    assert FindSubOption(opts, CopilotBusinessId) == Some(opts[1]);
    assert sel[1..] == [CopilotBusinessId];
    SumSingleton(CopilotBusinessId, CostOf(opts));
    SumSingleton(CopilotBusinessId, CountOf(opts));
    SumSingleton(CopilotBusinessId, PriceOf(opts));
    assert CostOf(opts)(CopilotEnterpriseId) == 39 * 20;
    assert CostOf(opts)(CopilotBusinessId) == 19 * 20;
    assert CountOf(opts)(CopilotEnterpriseId) == 20;
    assert CountOf(opts)(CopilotBusinessId) == 20;
    assert PriceOf(opts)(CopilotEnterpriseId) == 39;
    assert PriceOf(opts)(CopilotBusinessId) == 19;
    assert Sum(sel, CostOf(opts)) == 39 * 20 + 19 * 20;
    assert Sum(sel, CountOf(opts)) == 20 + 20;
    assert Sum(sel, PriceOf(opts)) == 39 + 19;
  }

  // ---------------------------------------------------------------------
  // Aggregation over the certifications
  // ---------------------------------------------------------------------

  lemma {:induction false} EnabledCertsConcat(a: seq<Certification>, b: seq<Certification>)
    ensures EnabledCerts(a + b) == EnabledCerts(a) + EnabledCerts(b)
  {
    if |a| == 0 {
      assert a + b == b;
    } else {
      assert (a + b)[1..] == a[1..] + b;
      EnabledCertsConcat(a[1..], b);
    }
  }

  /** The quote of a concatenation adds the quotes of the parts. */
  lemma QuoteConcat(a: seq<Certification>, b: seq<Certification>)
    ensures Subtotal(a + b) == Subtotal(a) + Subtotal(b)
    ensures TotalLicenses(a + b) == TotalLicenses(a) + TotalLicenses(b)
  {
    EnabledCertsConcat(a, b);
    SumConcat(EnabledCerts(a), EnabledCerts(b), LineTotal);
    SumConcat(EnabledCerts(a), EnabledCerts(b), LineLicenses);
  }

  /** Certification `i` adds its line total and license count to the quote
      when it is enabled and nothing when it is not. */
  lemma QuoteSplit(certs: seq<Certification>, i: int)
    requires 0 <= i < |certs|
    ensures var rest := certs[..i] + certs[i+1..];
      && Subtotal(certs) == Subtotal(rest) + (if certs[i].enabled then LineTotal(certs[i]) else 0)
      && TotalLicenses(certs) == TotalLicenses(rest) + (if certs[i].enabled then LineLicenses(certs[i]) else 0)
  {
    var x := certs[i];
    var pre, post := certs[..i], certs[i+1..];
    assert certs == (pre + [x]) + post;
    QuoteConcat(pre + [x], post);
    QuoteConcat(pre, [x]);
    QuoteConcat(pre, post);
    SingletonQuote(x);
  }

  lemma SingletonQuote(x: Certification)
    ensures Subtotal([x]) == if x.enabled then LineTotal(x) else 0
    ensures TotalLicenses([x]) == if x.enabled then LineLicenses(x) else 0
  {
    assert [x][1..] == [];
    assert EnabledCerts([x]) == if x.enabled then [x] else [];
    SumSingleton(x, LineTotal);
    SumSingleton(x, LineLicenses);
  }

  /** Disabling an enabled certification removes its whole contribution,
      whatever its licenses and selection still hold. */
  lemma DisableRemovesContribution(certs: seq<Certification>, i: int)
    requires 0 <= i < |certs| && certs[i].enabled
    ensures var after := Quote(certs[i := certs[i].(enabled := false)]);
      && after.subtotal == Quote(certs).subtotal - LineTotal(certs[i])
      && after.totalLicenses == Quote(certs).totalLicenses - LineLicenses(certs[i])
  {
    var d := certs[i := certs[i].(enabled := false)];
    QuoteSplit(certs, i);
    QuoteSplit(d, i);
    assert d[..i] + d[i+1..] == certs[..i] + certs[i+1..];
  }

  /** The state of a disabled certification does not reach the quote. */
  lemma DisabledStateIrrelevant(certs: seq<Certification>, i: int, c: Certification)
    requires 0 <= i < |certs| && !certs[i].enabled && !c.enabled
    ensures Quote(certs[i := c]) == Quote(certs)
  {
    var d := certs[i := c];
    QuoteSplit(certs, i);
    QuoteSplit(d, i);
    assert d[..i] + d[i+1..] == certs[..i] + certs[i+1..];
  }

  /** One accumulating pass over the certifications, proved equal to the
      effect's `filter` followed by its two separate reductions. */
  method ComputeTotals(certs: seq<Certification>) returns (t: Totals)
    ensures t == Quote(certs)
  {
    var subtotal := 0;
    var licenses := 0;
    var i := 0;
    while i < |certs|
      invariant 0 <= i <= |certs|
      invariant subtotal == Subtotal(certs[..i])
      invariant licenses == TotalLicenses(certs[..i])
    {
      QuoteSplit(certs[..i+1], i);
      assert certs[..i+1][..i] + certs[..i+1][i+1..] == certs[..i];
      if certs[i].enabled {
        subtotal := subtotal + LineTotal(certs[i]);
        licenses := licenses + LineLicenses(certs[i]);
      }
      i := i + 1;
    }
    assert certs[..i] == certs;
    var tax := subtotal as real * (TaxPercent as real / 100.0);
    t := Totals(subtotal, tax, subtotal as real + tax, licenses);
  }
}
