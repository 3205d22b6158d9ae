/** Worked quotes on the shipped catalog, driven through the handlers. */
module Scenarios {
  import opened Optional
  import opened Sums
  import opened Catalog
  import opened Selection
  import opened Pricing
  import opened Updates

  /** With nothing enabled, as at start-up, the quote is zero. */
  lemma InitialQuoteIsZero()
    ensures Quote(InitialCertifications) == Totals(0, 0.0, 0.0, 0)
  {
  }

  /** Advance Security enabled with both security options selected. */
  const SecurityCombo: Certification :=
    AdvanceSecurity.(enabled := true, selectedSubOptions := Some([CodeSecurityId, SecretSecurityId]))

  /** Three clicks: the Enterprise card, the Advance Security card, the
      Secret Security option. */
  lemma ClicksReachCombo()
    ensures var s1 := OnToggleEnabled(InitialCertifications, Enterprise);
      var s2 := OnToggleEnabled(s1, AdvanceSecurity);
      OnToggleSubOption(s2, s2[2], SecretSecurityId) == [Enterprise.(enabled := true), Copilot, SecurityCombo]
  {
    var s1 := OnToggleEnabled(InitialCertifications, Enterprise);
    var s2 := OnToggleEnabled(s1, AdvanceSecurity);
    assert Enterprise.id[4] != Copilot.id[4] && Copilot.id[4] != AdvanceSecurity.id[4];
    assert Enterprise.id[4] != AdvanceSecurity.id[4];
    assert s1 == [Enterprise.(enabled := true), Copilot, AdvanceSecurity];
    assert s2 == [Enterprise.(enabled := true), Copilot, AdvanceSecurity.(enabled := true)];
    assert CodeSecurityId[0] != SecretSecurityId[0];
    assert Toggle([CodeSecurityId], SecretSecurityId) == [CodeSecurityId, SecretSecurityId];
  }

  /** The combination is charged max(30, 50) * 49 = 2450 for 50 licenses. */
  lemma SecurityComboLine()
    ensures LineTotal(SecurityCombo) == 2450 && LineLicenses(SecurityCombo) == 50
  {
  }

  /** GitHub Enterprise at 50 licenses and the security combination:
      1050 + 2450 = 3500, IVA 665, total 4165, 100 licenses. */
  lemma EnterprisePlusSecurityCombo()
    ensures var s1 := OnToggleEnabled(InitialCertifications, Enterprise);
      var s2 := OnToggleEnabled(s1, AdvanceSecurity);
      Quote(OnToggleSubOption(s2, s2[2], SecretSecurityId)) == Totals(3500, 665.0, 4165.0, 100)
  {
    ClicksReachCombo();
    EnterpriseAndComboQuote();
  }

  /** The quote of the state the three clicks reach. */
  lemma EnterpriseAndComboQuote()
    ensures Quote([Enterprise.(enabled := true), Copilot, SecurityCombo]) == Totals(3500, 665.0, 4165.0, 100)
  {
    var e := Enterprise.(enabled := true);
    var a := SecurityCombo;
    SecurityComboLine();
    assert LineTotal(e) == 1050 && LineLicenses(e) == 50;
    assert EnabledCerts([e, Copilot, a]) == [e, a];
    assert [e, a] == [e] + [a];
    SumConcat([e], [a], LineTotal);
    SumConcat([e], [a], LineLicenses);
    SumSingleton(e, LineTotal);
    SumSingleton(a, LineTotal);
    SumSingleton(e, LineLicenses);
    SumSingleton(a, LineLicenses);
  }

  /** Enabling GitHub Copilot with its default Copilot Enterprise
      selection: 20 licenses at 39 is 780, IVA 148.2, total 928.2. */
  lemma CopilotEnterpriseAlone()
    ensures Quote(OnToggleEnabled(InitialCertifications, Copilot)) == Totals(780, 148.2, 928.2, 20)
  {
    var c := Copilot.(enabled := true);
    var opts := Copilot.subOptions.value;
    assert Enterprise.id[4] != Copilot.id[4] && Copilot.id[4] != AdvanceSecurity.id[4];
    assert OnToggleEnabled(InitialCertifications, Copilot) == [Enterprise, c, AdvanceSecurity];
    var s := [Enterprise, c, AdvanceSecurity];
    assert s[1..][1..] == [AdvanceSecurity] && EnabledCerts([AdvanceSecurity]) == [];
    assert EnabledCerts(s[1..]) == [c];
    assert EnabledCerts(s) == [c];
    assert FindSubOption(opts, CopilotEnterpriseId) == Some(opts[0]);
    SingleSelection(c, CopilotEnterpriseId);
    SumSingleton(c, LineTotal);
    SumSingleton(c, LineLicenses);
  }

  /** Out-of-range Code Security quantities are clamped to 130 and 30. */
  lemma CodeSecurityClamp()
    ensures ClampInput(Some(200), SubOptionMinLicenses(CodeSecurityId), SubOptionMaxLicenses) == 130
    ensures ClampInput(Some(-5), SubOptionMinLicenses(CodeSecurityId), SubOptionMaxLicenses) == 30
    ensures ClampInput(None, SubOptionMinLicenses(CodeSecurityId), SubOptionMaxLicenses) == 30
  {
  }

  /** The combined control's lower bound is 20 for both options, so it can
      write Secret Security a quantity below that option's own minimum of
      50, which its card shows once the combination is collapsed. */
  lemma CombinedInputUndercutsSecretMinimum()
    ensures var opts := SetBothSecurity(AdvanceSecurity.subOptions.value,
                                        ClampInput(Some(20), CombinedMinLicenses, SubOptionMaxLicenses));
      && opts[1].id == SecretSecurityId
      && opts[1].licenses == Some(20)
      && opts[1].licenses.value < SubOptionMinLicenses(SecretSecurityId)
  {
  }
}
