/** The state transitions of the form: the two id-targeted record updates
    and the event handlers built on them (enable toggle, sub-option toggle,
    combined-card deselects, quantity inputs and sliders). Each handler is
    given the certification as it was rendered and the current list, and
    returns the new list. */
module Updates {
  import opened Optional
  import opened Arith
  import opened Catalog
  import opened Selection
  import opened Pricing

  /** The partial records the handlers pass to `updateCertification`. */
  datatype Patch =
    | SetEnabled(enabled: bool)
    | SetLicenses(licenses: int)
    | SetSelected(selected: seq<string>)

  /** `{ ...cert, ...updates }`. */
  function ApplyPatch(c: Certification, p: Patch): Certification {
    match p
    case SetEnabled(e) => c.(enabled := e)
    case SetLicenses(n) => c.(licenses := n)
    case SetSelected(s) => c.(selectedSubOptions := Some(s))
  }

  /** `updateCertification`: every certification with the given id receives
      the patch, every other one is left as it was. */
  function UpdateCertification(certs: seq<Certification>, id: string, p: Patch): (r: seq<Certification>)
    ensures |r| == |certs|
    ensures forall i :: 0 <= i < |r| && certs[i].id != id ==> r[i] == certs[i]
    ensures forall i :: 0 <= i < |r| && certs[i].id == id ==> r[i] == ApplyPatch(certs[i], p)
  {
    if |certs| == 0 then []
    else
      [if certs[0].id == id then ApplyPatch(certs[0], p) else certs[0]]
      + UpdateCertification(certs[1..], id, p)
  }

  /** The inner `subOptions.map`: the options with the given id get the new
      `licenses`, nothing else changes. */
  function UpdateOptions(opts: seq<SubOption>, id: string, licenses: Option<int>): (r: seq<SubOption>)
    ensures |r| == |opts|
    ensures forall k :: 0 <= k < |r| ==> r[k].id == opts[k].id
    ensures forall k :: 0 <= k < |r| && opts[k].id != id ==> r[k] == opts[k]
    ensures forall k :: 0 <= k < |r| && opts[k].id == id ==> r[k] == opts[k].(licenses := licenses)
  {
    if |opts| == 0 then []
    else
      [if opts[0].id == id then opts[0].(licenses := licenses) else opts[0]]
      + UpdateOptions(opts[1..], id, licenses)
  }

  /** `updateSubOptionLicenses`: only the certifications with the given id
      that have sub-options change, and in them only the `licenses` of the
      options with the given id. */
  function UpdateSubOptionLicenses(certs: seq<Certification>, certId: string, subOptionId: string,
                                   licenses: Option<int>): (r: seq<Certification>)
    ensures |r| == |certs|
    ensures forall i :: 0 <= i < |r| && !(certs[i].id == certId && certs[i].subOptions.Some?) ==>
      r[i] == certs[i]
    ensures forall i :: 0 <= i < |r| && certs[i].id == certId && certs[i].subOptions.Some? ==>
      r[i] == certs[i].(subOptions := Some(UpdateOptions(certs[i].subOptions.value, subOptionId, licenses)))
  {
    if |certs| == 0 then []
    else
      var c := certs[0];
      var c' := if c.id == certId && c.subOptions.Some?
                then c.(subOptions := Some(UpdateOptions(c.subOptions.value, subOptionId, licenses)))
                else c;
      [c'] + UpdateSubOptionLicenses(certs[1..], certId, subOptionId, licenses)
  }

  /** After an update of the options with id `updated`, looking up any id
      finds the same option, carrying the new `licenses` if its id is
      `updated`. */
  lemma FindAfterUpdate(opts: seq<SubOption>, updated: string, licenses: Option<int>, id: string)
    ensures var r := FindSubOption(UpdateOptions(opts, updated, licenses), id);
      match FindSubOption(opts, id)
      case None => r.None?
      case Some(o) => r == Some(if o.id == updated then o.(licenses := licenses) else o)
  {
  }

  /** The number inputs: `Math.max(lo, Math.min(hi, parseInt(value) || lo))`. */
  function ClampInput(parsed: Option<int>, lo: int, hi: int): (r: int)
    ensures lo <= hi ==> lo <= r <= hi
    ensures parsed.None? || parsed.value == 0 ==> r == lo
    ensures parsed.Some? && parsed.value != 0 && parsed.value < lo ==> r == lo
    ensures parsed.Some? && parsed.value != 0 && lo <= parsed.value <= hi ==> r == parsed.value
    ensures parsed.Some? && parsed.value != 0 && parsed.value > hi && lo <= hi ==> r == hi
  {
    Max(lo, Min(hi, OrElse(parsed, lo)))
  }

  /** Ids are unique across the list, as they are in the catalog. */
  predicate UniqueIds(certs: seq<Certification>) {
    forall i, j :: 0 <= i < j < |certs| ==> certs[i].id != certs[j].id
  }

  /** The certification card click (and its checkbox). */
  function OnToggleEnabled(certs: seq<Certification>, cert: Certification): (r: seq<Certification>)
    ensures |r| == |certs|
    ensures forall i :: 0 <= i < |r| && certs[i].id == cert.id ==> r[i] == certs[i].(enabled := !cert.enabled)
    ensures forall i :: 0 <= i < |r| && certs[i].id != cert.id ==> r[i] == certs[i]
  {
    UpdateCertification(certs, cert.id, SetEnabled(!cert.enabled))
  }

  /** Toggling a certification on adds its whole line to the quote, toggling
      it off removes it. */
  lemma ToggleEnabledMovesLine(certs: seq<Certification>, i: int)
    requires 0 <= i < |certs| && UniqueIds(certs)
    ensures var r := OnToggleEnabled(certs, certs[i]);
      var sign := if certs[i].enabled then -1 else 1;
      && Quote(r).subtotal == Quote(certs).subtotal + sign * LineTotal(certs[i])
      && Quote(r).totalLicenses == Quote(certs).totalLicenses + sign * LineLicenses(certs[i])
  {
    var c := certs[i];
    var r := OnToggleEnabled(certs, c);
    assert r == certs[i := c.(enabled := !c.enabled)];
    QuoteSplit(certs, i);
    QuoteSplit(r, i);
    assert r[..i] + r[i+1..] == certs[..i] + certs[i+1..];
  }

  /** A sub-option card click on the rendered certification `cert`. */
  function OnToggleSubOption(certs: seq<Certification>, cert: Certification, optionId: string): (r: seq<Certification>)
    ensures |r| == |certs|
    ensures forall i :: 0 <= i < |r| && certs[i].id != cert.id ==> r[i] == certs[i]
    ensures forall i :: 0 <= i < |r| && certs[i].id == cert.id ==>
      && r[i].selectedSubOptions.Some?
      && (optionId in r[i].selectedSubOptions.value <==> optionId !in cert.selectedSubOptions.GetOr([]))
      && Remove(r[i].selectedSubOptions.value, optionId) == Remove(cert.selectedSubOptions.GetOr([]), optionId)
      && r[i] == certs[i].(selectedSubOptions := r[i].selectedSubOptions)
    ensures forall i :: 0 <= i < |r| && certs[i].id == cert.id ==>
      r[i] == certs[i].(selectedSubOptions := Some(Toggle(cert.selectedSubOptions.GetOr([]), optionId)))
  {
    var sel := cert.selectedSubOptions.GetOr([]);
    ToggleKeepsOthersInOrder(sel, optionId);
    UpdateCertification(certs, cert.id, SetSelected(Toggle(sel, optionId)))
  }

  /** A control of the combined security card. Afterwards no certification
      with that id is priced as the combination. */
  function OnComboDeselect(certs: seq<Certification>, cert: Certification, action: ComboDeselect): (r: seq<Certification>)
    ensures |r| == |certs|
    ensures forall i :: 0 <= i < |r| && certs[i].id != cert.id ==> r[i] == certs[i]
    ensures forall i :: 0 <= i < |r| && certs[i].id == cert.id ==>
      r[i] == certs[i].(selectedSubOptions := Some(Deselect(cert.selectedSubOptions, action)))
    ensures forall i :: 0 <= i < |r| && certs[i].id == cert.id ==> !ComboActive(r[i])
  {
    UpdateCertification(certs, cert.id, SetSelected(Deselect(cert.selectedSubOptions, action)))
  }

  /** The "Cantidad exacta" input of a certification without sub-options. */
  function OnLicensesInput(certs: seq<Certification>, cert: Certification, parsed: Option<int>): (r: seq<Certification>)
    ensures |r| == |certs|
    ensures forall i :: 0 <= i < |r| && certs[i].id != cert.id ==> r[i] == certs[i]
    ensures forall i :: 0 <= i < |r| && certs[i].id == cert.id ==>
      && r[i] == certs[i].(licenses := ClampInput(parsed, cert.minLicenses, cert.maxLicenses))
      && (cert.minLicenses <= cert.maxLicenses ==> cert.minLicenses <= r[i].licenses <= cert.maxLicenses)
      && (parsed.None? ==> r[i].licenses == cert.minLicenses)
  {
    UpdateCertification(certs, cert.id,
      SetLicenses(ClampInput(parsed, cert.minLicenses, cert.maxLicenses)))
  }

  /** The quantity input of one selected sub-option card. */
  function OnSubOptionInput(certs: seq<Certification>, cert: Certification, option: SubOption,
                            parsed: Option<int>): (r: seq<Certification>)
    ensures |r| == |certs|
    ensures forall i :: 0 <= i < |r| && !(certs[i].id == cert.id && certs[i].subOptions.Some?) ==> r[i] == certs[i]
    ensures forall i :: 0 <= i < |r| && certs[i].id == cert.id && certs[i].subOptions.Some? ==>
      r[i] == certs[i].(subOptions := Some(UpdateOptions(certs[i].subOptions.value, option.id,
                          Some(ClampInput(parsed, SubOptionMinLicenses(option.id), SubOptionMaxLicenses)))))
    ensures forall i, k ::
      (&& 0 <= i < |r| && certs[i].id == cert.id && certs[i].subOptions.Some?
       && 0 <= k < |certs[i].subOptions.value| && certs[i].subOptions.value[k].id == option.id)
      ==>
        && r[i].subOptions.Some?
        && |r[i].subOptions.value| == |certs[i].subOptions.value|
        && r[i].subOptions.value[k].licenses.Some?
        && SubOptionMinLicenses(option.id) <= r[i].subOptions.value[k].licenses.value <= SubOptionMaxLicenses
  {
    var v := ClampInput(parsed, SubOptionMinLicenses(option.id), SubOptionMaxLicenses);
    UpdateSubOptionLicenses(certs, cert.id, option.id, Some(v))
  }

  /** The combined card writes one value to both security options. */
  function SetBothSecurity(opts: seq<SubOption>, v: int): seq<SubOption> {
    UpdateOptions(UpdateOptions(opts, CodeSecurityId, Some(v)), SecretSecurityId, Some(v))
  }

  /** After the combined control writes a non-zero value to both security
      options, the combined quantity is that value. */
  lemma SetBothSecurityComboLicenses(opts: seq<SubOption>, v: int)
    requires v != 0
    requires FindSubOption(opts, CodeSecurityId).Some? && FindSubOption(opts, SecretSecurityId).Some?
    ensures ComboLicenses(SetBothSecurity(opts, v)) == v
  {
  }

  /** The quantity input of the combined security card. */
  function OnCombinedInput(certs: seq<Certification>, cert: Certification, parsed: Option<int>): (r: seq<Certification>)
    ensures |r| == |certs|
    ensures forall i :: 0 <= i < |r| && !(certs[i].id == cert.id && certs[i].subOptions.Some?) ==> r[i] == certs[i]
    ensures forall i :: 0 <= i < |r| && certs[i].id == cert.id && certs[i].subOptions.Some? ==>
      r[i] == certs[i].(subOptions := Some(SetBothSecurity(certs[i].subOptions.value,
                                                           ClampInput(parsed, CombinedMinLicenses, SubOptionMaxLicenses))))
  {
    var v := ClampInput(parsed, CombinedMinLicenses, SubOptionMaxLicenses);
    UpdateSubOptionLicenses(UpdateSubOptionLicenses(certs, cert.id, CodeSecurityId, Some(v)),
                            cert.id, SecretSecurityId, Some(v))
  }

  /** After the combined input, a certification with that id holding both
      security options shows, and is charged for, the clamped value. */
  lemma CombinedInputSetsComboLicenses(certs: seq<Certification>, cert: Certification, parsed: Option<int>, i: int)
    requires 0 <= i < |certs| && certs[i].id == cert.id && certs[i].subOptions.Some?
    requires FindSubOption(certs[i].subOptions.value, CodeSecurityId).Some?
    requires FindSubOption(certs[i].subOptions.value, SecretSecurityId).Some?
    ensures var r := OnCombinedInput(certs, cert, parsed);
      && r[i].subOptions.Some?
      && ComboLicenses(r[i].subOptions.value) == ClampInput(parsed, CombinedMinLicenses, SubOptionMaxLicenses)
      && CombinedMinLicenses <= ComboLicenses(r[i].subOptions.value) <= SubOptionMaxLicenses
  {
    var v := ClampInput(parsed, CombinedMinLicenses, SubOptionMaxLicenses);
    var r := OnCombinedInput(certs, cert, parsed);
    assert r[i].subOptions.value == SetBothSecurity(certs[i].subOptions.value, v);
    SetBothSecurityComboLicenses(certs[i].subOptions.value, v);
  }

  /** The slider of a certification without sub-options. The browser keeps
      its value within the bounds; on a non-zero value it agrees with the
      number input. */
  function OnLicensesSlider(certs: seq<Certification>, cert: Certification, value: int): (r: seq<Certification>)
    requires cert.minLicenses <= value <= cert.maxLicenses
    ensures value != 0 ==> r == OnLicensesInput(certs, cert, Some(value))
  {
    UpdateCertification(certs, cert.id, SetLicenses(value))
  }

  /** The slider of one selected sub-option card; it agrees with the number
      input for every value the browser lets through. */
  function OnSubOptionSlider(certs: seq<Certification>, cert: Certification, option: SubOption,
                             value: int): (r: seq<Certification>)
    requires SubOptionMinLicenses(option.id) <= value <= SubOptionMaxLicenses
    ensures r == OnSubOptionInput(certs, cert, option, Some(value))
  {
    UpdateSubOptionLicenses(certs, cert.id, option.id, Some(value))
  }

  /** The slider of the combined security card; it agrees with the number
      input for every value the browser lets through. */
  function OnCombinedSlider(certs: seq<Certification>, cert: Certification, value: int): (r: seq<Certification>)
    requires CombinedMinLicenses <= value <= SubOptionMaxLicenses
    ensures r == OnCombinedInput(certs, cert, Some(value))
  {
    UpdateSubOptionLicenses(UpdateSubOptionLicenses(certs, cert.id, CodeSecurityId, Some(value)),
                            cert.id, SecretSecurityId, Some(value))
  }
}
