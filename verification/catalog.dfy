/** The records of the quotation form and its fixed catalog of three
    certifications (GitHub Enterprise, GitHub Copilot, GitHub Advance
    Security), with the hard-wired identifiers and constants the pricing
    rules refer to. */
module Catalog {
  import opened Optional

  /** A sub-option of a certification. `licenses` is optional in the record
      type; it also holds NaN (None) after a slider writes an unparsable value. */
  datatype SubOption = SubOption(
    id: string,
    name: string,
    pricePerLicense: int,
    licenses: Option<int>)

  /** A purchasable certification and the user's current choices for it. */
  datatype Certification = Certification(
    id: string,
    name: string,
    description: string,
    pricePerLicense: int,
    minLicenses: int,
    maxLicenses: int,
    enabled: bool,
    licenses: int,
    image: string,
    subOptions: Option<seq<SubOption>>,
    selectedSubOptions: Option<seq<string>>)

  // Identifiers the pricing rules test for literally.
  const AdvanceSecurityId: string := "cert3"
  const CodeSecurityId: string := "code-security"
  const SecretSecurityId: string := "secret-security"
  const CopilotEnterpriseId: string := "copilot-enterprise"
  const CopilotBusinessId: string := "copilot-business"

  /** Per-license price of Code Security and Secret Security bought together. */
  const ComboPrice: int := 49
  /** Fallbacks of `licenses || 30` and `licenses || 50` in the combined quantity. */
  const CodeSecurityFallback: int := 30
  const SecretSecurityFallback: int := 50
  /** Fallback of `licenses || 20` for any selected sub-option. */
  const SubOptionFallback: int := 20
  /** Upper bound of every sub-option quantity control. */
  const SubOptionMaxLicenses: int := 130
  /** Lower bound of the combined Code Security + Secret Security control. */
  const CombinedMinLicenses: int := 20
  /** IVA, 19 percent. */
  const TaxPercent: int := 19

  /** The lower bound of a sub-option's quantity controls, keyed by its id. */
  function SubOptionMinLicenses(id: string): (r: int)
    ensures r in {20, 30, 50}
    ensures id == CodeSecurityId ==> r == 30
    ensures id == SecretSecurityId ==> r == 50
    ensures id != CodeSecurityId && id != SecretSecurityId ==> r == 20
  {
    if id == CopilotEnterpriseId then 20
    else if id == CopilotBusinessId then 20
    else if id == CodeSecurityId then 30
    else if id == SecretSecurityId then 50
    else 20
  }

  /** Index of the first sub-option with the given id, or `|opts|` when there
      is none: the position `Array.prototype.find` stops at. */
  function FindIndex(opts: seq<SubOption>, id: string): (k: nat)
    ensures k <= |opts|
    ensures forall j :: 0 <= j < k ==> opts[j].id != id
    ensures k < |opts| ==> opts[k].id == id
  {
    if |opts| == 0 then 0
    else if opts[0].id == id then 0
    else 1 + FindIndex(opts[1..], id)
  }

  /** `opts.find(option => option.id === id)`. */
  function FindSubOption(opts: seq<SubOption>, id: string): (r: Option<SubOption>)
    ensures r.None? <==> forall j :: 0 <= j < |opts| ==> opts[j].id != id
    ensures r.Some? ==> r.value.id == id && r.value in opts
    ensures r.Some? ==> exists k :: 0 <= k < |opts| && opts[k] == r.value && forall j :: 0 <= j < k ==> opts[j].id != id
  {
    var k := FindIndex(opts, id);
    if k < |opts| then Some(opts[k]) else None
  }

  const Enterprise: Certification := Certification(
    "cert1", "GitHub Enterprise",
    "Certificación avanzada en desarrollo y programación",
    21, 50, 130, false, 50, "/certification.png", None, None)

  const Copilot: Certification := Certification(
    "cert2", "GitHub Copilot",
    "Certificación básica en competencias digitales",
    45, 20, 130, false, 20, "/certification.png",
    Some([SubOption(CopilotEnterpriseId, "GitHub Copilot Enterprise", 39, Some(20)),
          SubOption(CopilotBusinessId, "GitHub Copilot Business", 19, Some(20))]),
    Some([CopilotEnterpriseId]))

  const AdvanceSecurity: Certification := Certification(
    AdvanceSecurityId, "GitHub Advance Security",
    "Certificación profesional en metodologías ágiles",
    30, 30, 130, false, 30, "/certification.png",
    Some([SubOption(CodeSecurityId, "Code Security", 30, Some(30)),
          SubOption(SecretSecurityId, "Secret Security", 19, Some(50))]),
    Some([CodeSecurityId]))

  /** The state the form starts with: every certification disabled, the
      first sub-option of each pre-selected. */
  const InitialCertifications: seq<Certification> := [Enterprise, Copilot, AdvanceSecurity]
}
