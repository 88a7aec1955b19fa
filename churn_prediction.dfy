/** The churn-risk prediction form (src/components/ChurnPrediction.tsx): sixteen answers kept as
    strings, the check that every answer is given, and the one-hot encoding of the answers into the
    39-key feature record that is posted to the prediction endpoint. */
module ChurnPrediction {
  import opened Wrappers

  /** The sixteen form fields, in the order the form state declares them. */
  datatype Field =
    | SeniorCitizen | Partner | Dependents | Tenure | InternetService
    | OnlineSecurity | OnlineBackup | DeviceProtection | TechSupport | StreamingTV | StreamingMovies
    | Contract | PaperlessBilling | PaymentMethod | MonthlyCharges | TotalCharges

  /** The form state: one string per field, "" while nothing has been entered. */
  datatype Form = Form(
    seniorCitizen: string, partner: string, dependents: string, tenure: string,
    internetService: string, onlineSecurity: string, onlineBackup: string,
    deviceProtection: string, techSupport: string, streamingTV: string, streamingMovies: string,
    contract: string, paperlessBilling: string, paymentMethod: string,
    monthlyCharges: string, totalCharges: string)

  const EmptyForm: Form := Form("", "", "", "", "", "", "", "", "", "", "", "", "", "", "", "")

  /** The state key of a field, which is also the `id` of its input element. */
  function FieldId(f: Field): string
  {
    match f
    case SeniorCitizen => "SeniorCitizen"
    case Partner => "Partner"
    case Dependents => "Dependents"
    case Tenure => "tenure"
    case InternetService => "InternetService"
    case OnlineSecurity => "OnlineSecurity"
    case OnlineBackup => "OnlineBackup"
    case DeviceProtection => "DeviceProtection"
    case TechSupport => "TechSupport"
    case StreamingTV => "StreamingTV"
    case StreamingMovies => "StreamingMovies"
    case Contract => "Contract"
    case PaperlessBilling => "PaperlessBilling"
    case PaymentMethod => "PaymentMethod"
    case MonthlyCharges => "MonthlyCharges"
    case TotalCharges => "TotalCharges"
  }

  /** The field whose state key is `id`, if there is one. */
  function FieldNamed(id: string): (r: Option<Field>)
    ensures r.Some? ==> FieldId(r.value) == id
    ensures r.None? ==> forall f: Field :: FieldId(f) != id
  {
    if id == "SeniorCitizen" then Some(SeniorCitizen)
    else if id == "Partner" then Some(Partner)
    else if id == "Dependents" then Some(Dependents)
    else if id == "tenure" then Some(Tenure)
    else if id == "InternetService" then Some(InternetService)
    else if id == "OnlineSecurity" then Some(OnlineSecurity)
    else if id == "OnlineBackup" then Some(OnlineBackup)
    else if id == "DeviceProtection" then Some(DeviceProtection)
    else if id == "TechSupport" then Some(TechSupport)
    else if id == "StreamingTV" then Some(StreamingTV)
    else if id == "StreamingMovies" then Some(StreamingMovies)
    else if id == "Contract" then Some(Contract)
    else if id == "PaperlessBilling" then Some(PaperlessBilling)
    else if id == "PaymentMethod" then Some(PaymentMethod)
    else if id == "MonthlyCharges" then Some(MonthlyCharges)
    else if id == "TotalCharges" then Some(TotalCharges)
    else None
  }

  function Get(form: Form, f: Field): string
  {
    match f
    case SeniorCitizen => form.seniorCitizen
    case Partner => form.partner
    case Dependents => form.dependents
    case Tenure => form.tenure
    case InternetService => form.internetService
    case OnlineSecurity => form.onlineSecurity
    case OnlineBackup => form.onlineBackup
    case DeviceProtection => form.deviceProtection
    case TechSupport => form.techSupport
    case StreamingTV => form.streamingTV
    case StreamingMovies => form.streamingMovies
    case Contract => form.contract
    case PaperlessBilling => form.paperlessBilling
    case PaymentMethod => form.paymentMethod
    case MonthlyCharges => form.monthlyCharges
    case TotalCharges => form.totalCharges
  }

  /** `{ ...formData, [f]: v }`: the form with field `f` replaced by `v`. */
  function Set(form: Form, f: Field, v: string): (r: Form)
    ensures Get(r, f) == v
    ensures forall g: Field :: g != f ==> Get(r, g) == Get(form, g)
  {
    match f
    case SeniorCitizen => form.(seniorCitizen := v)
    case Partner => form.(partner := v)
    case Dependents => form.(dependents := v)
    case Tenure => form.(tenure := v)
    case InternetService => form.(internetService := v)
    case OnlineSecurity => form.(onlineSecurity := v)
    case OnlineBackup => form.(onlineBackup := v)
    case DeviceProtection => form.(deviceProtection := v)
    case TechSupport => form.(techSupport := v)
    case StreamingTV => form.(streamingTV := v)
    case StreamingMovies => form.(streamingMovies := v)
    case Contract => form.(contract := v)
    case PaperlessBilling => form.(paperlessBilling := v)
    case PaymentMethod => form.(paymentMethod := v)
    case MonthlyCharges => form.(monthlyCharges := v)
    case TotalCharges => form.(totalCharges := v)
  }

  /** The values a select field offers; the three numeric fields are free-text inputs and offer none. */
  function SelectOptions(f: Field): seq<string>
  {
    match f
    case InternetService => ["DSL", "Fiber optic", "No"]
    case Contract => ["Month-to-month", "One year", "Two year"]
    case PaymentMethod =>
      ["Bank transfer (automatic)", "Credit card (automatic)", "Electronic check", "Mailed check"]
    case Tenure | MonthlyCharges | TotalCharges => []
    case _ => ["No", "Yes"]
  }

  /** The six add-on services, whose selects depend on the internet service. */
  predicate IsAddOn(f: Field)
  {
    f in {OnlineSecurity, OnlineBackup, DeviceProtection, TechSupport, StreamingTV, StreamingMovies}
  }

  /** An add-on select is disabled while the internet service is "No". */
  predicate Disabled(form: Form, f: Field)
  {
    IsAddOn(f) && form.internetService == "No"
  }

  /** The submit guard `!SeniorCitizen || !Partner || ... || !TotalCharges`: the first field, in
      the guard's order, that is still the empty string (the only falsy string). */
  function MissingField(form: Form): (r: Option<Field>)
    ensures r.Some? ==> Get(form, r.value) == ""
    ensures r.None? ==> forall f: Field :: Get(form, f) != ""
  {
    if form.seniorCitizen == "" then Some(SeniorCitizen)
    else if form.partner == "" then Some(Partner)
    else if form.dependents == "" then Some(Dependents)
    else if form.tenure == "" then Some(Tenure)
    else if form.internetService == "" then Some(InternetService)
    else if form.onlineSecurity == "" then Some(OnlineSecurity)
    else if form.onlineBackup == "" then Some(OnlineBackup)
    else if form.deviceProtection == "" then Some(DeviceProtection)
    else if form.techSupport == "" then Some(TechSupport)
    else if form.streamingTV == "" then Some(StreamingTV)
    else if form.streamingMovies == "" then Some(StreamingMovies)
    else if form.contract == "" then Some(Contract)
    else if form.paperlessBilling == "" then Some(PaperlessBilling)
    else if form.paymentMethod == "" then Some(PaymentMethod)
    else if form.monthlyCharges == "" then Some(MonthlyCharges)
    else if form.totalCharges == "" then Some(TotalCharges)
    else None
  }

  // ---------------------------------------------------------------------------------------------
  // The feature record

  /** A value of the feature record: a 0/1 indicator, or a numeric field passed on as
      `Number(text)` (the parse itself is not modelled). */
  datatype FeatureValue = Indicator(bit: int) | Passthrough(text: string)

  /** The record as its keys and values in the order the object literal lists them. */
  type FeatureVector = seq<(string, FeatureValue)>

  /** One indicator of the record: `key: <field> === "<value>" ? 1 : 0`. */
  datatype IndicatorRule = IndicatorRule(key: string, field: Field, value: string)

  // The indicators of the record, group by group, in the order of the object literal.
  const SeniorCitizenRules: seq<IndicatorRule> := [
    IndicatorRule("SeniorCitizen_No", SeniorCitizen, "No"),
    IndicatorRule("SeniorCitizen_Yes", SeniorCitizen, "Yes")]
  const PartnerRules: seq<IndicatorRule> := [
    IndicatorRule("Partner_No", Partner, "No"),
    IndicatorRule("Partner_Yes", Partner, "Yes")]
  const DependentsRules: seq<IndicatorRule> := [
    IndicatorRule("Dependents_No", Dependents, "No"),
    IndicatorRule("Dependents_Yes", Dependents, "Yes")]
  const InternetServiceRules: seq<IndicatorRule> := [
    IndicatorRule("InternetService_DSL", InternetService, "DSL"),
    IndicatorRule("InternetService_Fiber", InternetService, "Fiber optic"),
    IndicatorRule("InternetService_No", InternetService, "No")]
  const OnlineSecurityRules: seq<IndicatorRule> := [
    IndicatorRule("OnlineSecurity_No", OnlineSecurity, "No"),
    IndicatorRule("OnlineSecurity_NoInternetService", InternetService, "No"),
    IndicatorRule("OnlineSecurity_Yes", OnlineSecurity, "Yes")]
  const OnlineBackupRules: seq<IndicatorRule> := [
    IndicatorRule("OnlineBackup_No", OnlineBackup, "No"),
    IndicatorRule("OnlineBackup_NoInternetService", InternetService, "No"),
    IndicatorRule("OnlineBackup_Yes", OnlineBackup, "Yes")]
  const DeviceProtectionRules: seq<IndicatorRule> := [
    IndicatorRule("DeviceProtection_No", DeviceProtection, "No"),
    IndicatorRule("DeviceProtection_NoInternetService", InternetService, "No"),
    IndicatorRule("DeviceProtection_Yes", DeviceProtection, "Yes")]
  const TechSupportRules: seq<IndicatorRule> := [
    IndicatorRule("TechSupport_No", TechSupport, "No"),
    IndicatorRule("TechSupport_NoInternetService", InternetService, "No"),
    IndicatorRule("TechSupport_Yes", TechSupport, "Yes")]
  const StreamingTVRules: seq<IndicatorRule> := [
    IndicatorRule("StreamingTV_No", StreamingTV, "No"),
    IndicatorRule("StreamingTV_NoInternetService", InternetService, "No"),
    IndicatorRule("StreamingTV_Yes", StreamingTV, "Yes")]
  const StreamingMoviesRules: seq<IndicatorRule> := [
    IndicatorRule("StreamingMovies_No", StreamingMovies, "No"),
    IndicatorRule("StreamingMovies_NoInternetService", InternetService, "No"),
    IndicatorRule("StreamingMovies_Yes", StreamingMovies, "Yes")]
  const ContractRules: seq<IndicatorRule> := [
    IndicatorRule("Contract_MonthToMonth", Contract, "Month-to-month"),
    IndicatorRule("Contract_OneYear", Contract, "One year"),
    IndicatorRule("Contract_TwoYear", Contract, "Two year")]
  const PaperlessBillingRules: seq<IndicatorRule> := [
    IndicatorRule("PaperlessBilling_No", PaperlessBilling, "No"),
    IndicatorRule("PaperlessBilling_Yes", PaperlessBilling, "Yes")]
  const PaymentMethodRules: seq<IndicatorRule> := [
    IndicatorRule("PaymentMethod_BankTransfer", PaymentMethod, "Bank transfer (automatic)"),
    IndicatorRule("PaymentMethod_CreditCard", PaymentMethod, "Credit card (automatic)"),
    IndicatorRule("PaymentMethod_ElectronicCheck", PaymentMethod, "Electronic check"),
    IndicatorRule("PaymentMethod_MailedCheck", PaymentMethod, "Mailed check")]

  /** The 36 indicators of the record, in order. */
  const IndicatorRules: seq<IndicatorRule> :=
    SeniorCitizenRules + PartnerRules + DependentsRules + InternetServiceRules
    + OnlineSecurityRules + OnlineBackupRules + DeviceProtectionRules + TechSupportRules
    + StreamingTVRules + StreamingMoviesRules
    + ContractRules + PaperlessBillingRules + PaymentMethodRules

  function KeysOf(rules: seq<IndicatorRule>): (keys: seq<string>)
    ensures |keys| == |rules|
    ensures forall i :: 0 <= i < |rules| ==> keys[i] == rules[i].key
  {
    seq(|rules|, i requires 0 <= i < |rules| => rules[i].key)
  }

  /** The keys of the record, in order: the indicators' keys, then the three numeric fields. */
  const WireKeys: seq<string> := KeysOf(IndicatorRules) + ["tenure", "MonthlyCharges", "TotalCharges"]

  predicate Distinct(s: seq<string>)
  {
    forall i, j :: 0 <= i < j < |s| ==> s[i] != s[j]
  }

  function IndicatorOf(form: Form, rule: IndicatorRule): FeatureValue
  {
    Indicator(if Get(form, rule.field) == rule.value then 1 else 0)
  }

  /** `formattedData`: the 36 indicators followed by the three numeric fields; every indicator
      is 0 or 1 and the numeric fields carry their text unchanged. */
  function Encode(form: Form): (r: FeatureVector)
    ensures |r| == 39
    ensures forall i :: 0 <= i < |r| ==> r[i].0 == WireKeys[i]
    ensures forall i :: 0 <= i < 36 ==> r[i].1.Indicator? && 0 <= r[i].1.bit <= 1
    ensures r[36..] == [("tenure", Passthrough(form.tenure)),
                        ("MonthlyCharges", Passthrough(form.monthlyCharges)),
                        ("TotalCharges", Passthrough(form.totalCharges))]
  {
    var rules := IndicatorRules;
    assert |rules| == 36;
    seq(36, i requires 0 <= i < 36 => (rules[i].key, IndicatorOf(form, rules[i])))
    + [("tenure", Passthrough(form.tenure)),
       ("MonthlyCharges", Passthrough(form.monthlyCharges)),
       ("TotalCharges", Passthrough(form.totalCharges))]
  }

  /** The position of `key` among the record's keys, or -1 (looking at the first letter first). */
  function KeyPosition(key: string): int
  {
    if key == "" then -1
    else match key[0]
      case 'S' =>
        if key == "SeniorCitizen_No" then 0
        else if key == "SeniorCitizen_Yes" then 1
        else if key == "StreamingTV_No" then 21
        else if key == "StreamingTV_NoInternetService" then 22
        else if key == "StreamingTV_Yes" then 23
        else if key == "StreamingMovies_No" then 24
        else if key == "StreamingMovies_NoInternetService" then 25
        else if key == "StreamingMovies_Yes" then 26
        else -1
      case 'P' =>
        if key == "Partner_No" then 2
        else if key == "Partner_Yes" then 3
        else if key == "PaperlessBilling_No" then 30
        else if key == "PaperlessBilling_Yes" then 31
        else if key == "PaymentMethod_BankTransfer" then 32
        else if key == "PaymentMethod_CreditCard" then 33
        else if key == "PaymentMethod_ElectronicCheck" then 34
        else if key == "PaymentMethod_MailedCheck" then 35
        else -1
      case 'D' =>
        if key == "Dependents_No" then 4
        else if key == "Dependents_Yes" then 5
        else if key == "DeviceProtection_No" then 15
        else if key == "DeviceProtection_NoInternetService" then 16
        else if key == "DeviceProtection_Yes" then 17
        else -1
      case 'I' =>
        if key == "InternetService_DSL" then 6
        else if key == "InternetService_Fiber" then 7
        else if key == "InternetService_No" then 8
        else -1
      case 'O' =>
        if key == "OnlineSecurity_No" then 9
        else if key == "OnlineSecurity_NoInternetService" then 10
        else if key == "OnlineSecurity_Yes" then 11
        else if key == "OnlineBackup_No" then 12
        else if key == "OnlineBackup_NoInternetService" then 13
        else if key == "OnlineBackup_Yes" then 14
        else -1
      case 'T' =>
        if key == "TechSupport_No" then 18
        else if key == "TechSupport_NoInternetService" then 19
        else if key == "TechSupport_Yes" then 20
        else if key == "TotalCharges" then 38
        else -1
      case 'C' =>
        if key == "Contract_MonthToMonth" then 27
        else if key == "Contract_OneYear" then 28
        else if key == "Contract_TwoYear" then 29
        else -1
      case 't' =>
        if key == "tenure" then 36
        else -1
      case 'M' =>
        if key == "MonthlyCharges" then 37
        else -1
      case _ => -1
  }

  lemma KeyPositionFirstQuarter()
    ensures forall i :: 0 <= i < 9 ==> KeyPosition(WireKeys[i]) == i
  {
  }

  lemma KeyPositionSecondQuarter()
    ensures forall i :: 9 <= i < 18 ==> KeyPosition(WireKeys[i]) == i
  {
  }

  lemma KeyPositionThirdQuarter()
    ensures forall i :: 18 <= i < 27 ==> KeyPosition(WireKeys[i]) == i
  {
  }

  lemma KeyPositionLastQuarter()
    ensures forall i :: 27 <= i < |WireKeys| ==> KeyPosition(WireKeys[i]) == i
  {
  }

  /** The record has exactly 39 keys, all distinct: `KeyPosition` recovers each key's position. */
  lemma WireKeysDistinct()
    ensures |WireKeys| == 39 && Distinct(WireKeys)
  {
    KeyPositionFirstQuarter();
    KeyPositionSecondQuarter();
    KeyPositionThirdQuarter();
    KeyPositionLastQuarter();
  }

  /** What `handleSubmit` sends: nothing while a field is missing, otherwise the encoded record. */
  function PrepareRequest(form: Form): (r: Option<FeatureVector>)
    ensures r.None? <==> exists f: Field :: Get(form, f) == ""
    ensures r.Some? ==> r.value == Encode(form)
  {
    if MissingField(form).Some? then None else Some(Encode(form))
  }

  /** The value stored under `key`, from the first entry with that key. */
  function Lookup(vec: FeatureVector, key: string): Option<FeatureValue>
  {
    if vec == [] then None
    else if vec[0].0 == key then Some(vec[0].1)
    else Lookup(vec[1..], key)
  }

  lemma {:induction false} LookupDistinct(vec: FeatureVector, i: nat)
    requires i < |vec|
    requires forall j :: 0 <= j < |vec| && j != i ==> vec[j].0 != vec[i].0
    ensures Lookup(vec, vec[i].0) == Some(vec[i].1)
  {
    if i > 0 {
      assert vec[0].0 != vec[i].0;
      LookupDistinct(vec[1..], i - 1);
    }
  }

  /** Reading the record by key: the indicator of a rule is 1 exactly when the rule's field holds
      the rule's value, compared case-sensitively. */
  lemma LookupIndicator(form: Form, rule: IndicatorRule)
    requires rule in IndicatorRules
    ensures Lookup(Encode(form), rule.key)
         == Some(Indicator(if Get(form, rule.field) == rule.value then 1 else 0))
  {
    var k :| 0 <= k < |IndicatorRules| && IndicatorRules[k] == rule;
    var r := Encode(form);
    WireKeysDistinct();
    assert r[k].0 == rule.key;
    LookupDistinct(r, k);
  }

  /** Reading the record by key: the three numeric keys carry the field text unchanged. */
  lemma LookupPassthrough(form: Form)
    ensures Lookup(Encode(form), "tenure") == Some(Passthrough(form.tenure))
    ensures Lookup(Encode(form), "MonthlyCharges") == Some(Passthrough(form.monthlyCharges))
    ensures Lookup(Encode(form), "TotalCharges") == Some(Passthrough(form.totalCharges))
  {
    var r := Encode(form);
    WireKeysDistinct();
    assert r[36].0 == "tenure" && r[37].0 == "MonthlyCharges" && r[38].0 == "TotalCharges";
    LookupDistinct(r, 36);
    LookupDistinct(r, 37);
    LookupDistinct(r, 38);
  }

  // ---------------------------------------------------------------------------------------------
  // One-hot families

  /** The groups whose indicators are one-hot over the options of one select field. */
  const OneHotGroups: seq<seq<IndicatorRule>> := [
    SeniorCitizenRules, PartnerRules, DependentsRules, InternetServiceRules,
    ContractRules, PaperlessBillingRules, PaymentMethodRules]

  /** How many of `keys` hold the indicator 1 in `vec`. */
  function OnesAt(vec: FeatureVector, keys: seq<string>): nat
  {
    if keys == [] then 0
    else (if Lookup(vec, keys[0]) == Some(Indicator(1)) then 1 else 0) + OnesAt(vec, keys[1..])
  }

  lemma {:induction false} OnesOfOneHot(vec: FeatureVector, keys: seq<string>, x: string, domain: seq<string>)
    requires |keys| == |domain| && Distinct(domain)
    requires forall j :: 0 <= j < |keys| ==>
      Lookup(vec, keys[j]) == Some(Indicator(if x == domain[j] then 1 else 0))
    ensures OnesAt(vec, keys) == if x in domain then 1 else 0
  {
    if keys != [] {
      OnesOfOneHot(vec, keys[1..], x, domain[1..]);
      assert domain == [domain[0]] + domain[1..];
      assert x == domain[0] ==> x !in domain[1..];
    }
  }

  lemma OneHotGroupsInRules(group: seq<IndicatorRule>)
    requires group in OneHotGroups
    ensures forall r :: r in group ==> r in IndicatorRules
  {
  }

  lemma OneHotGroupShape(group: seq<IndicatorRule>)
    requires group in OneHotGroups
    ensures group != [] && |group| == |SelectOptions(group[0].field)|
    ensures Distinct(SelectOptions(group[0].field))
    ensures forall j :: 0 <= j < |group| ==>
      group[j] in IndicatorRules && group[j].field == group[0].field
      && group[j].value == SelectOptions(group[0].field)[j]
  {
    OneHotGroupsInRules(group);
  }

  /** SeniorCitizen, Partner, Dependents, InternetService, Contract, PaperlessBilling and
      PaymentMethod: the family's indicators say which option of the field's select was chosen, so
      exactly one of them is 1 when the field holds one of those options and none is 1 for any
      other string, one that differs only in case included. */
  lemma FamilyExactlyOne(form: Form, group: seq<IndicatorRule>)
    requires group in OneHotGroups
    ensures group != [] && |group| == |SelectOptions(group[0].field)|
    ensures forall j :: 0 <= j < |group| ==>
      Lookup(Encode(form), group[j].key)
        == Some(Indicator(if Get(form, group[0].field) == SelectOptions(group[0].field)[j] then 1 else 0))
    ensures OnesAt(Encode(form), KeysOf(group))
         == if Get(form, group[0].field) in SelectOptions(group[0].field) then 1 else 0
  {
    OneHotGroupShape(group);
    var options := SelectOptions(group[0].field);
    forall j | 0 <= j < |group|
      ensures Lookup(Encode(form), group[j].key)
           == Some(Indicator(if Get(form, group[0].field) == options[j] then 1 else 0))
    {
      LookupIndicator(form, group[j]);
    }
    OnesOfOneHot(Encode(form), KeysOf(group), Get(form, group[0].field), options);
  }

  // ---------------------------------------------------------------------------------------------
  // The add-on services

  const AddOnGroups: seq<seq<IndicatorRule>> := [
    OnlineSecurityRules, OnlineBackupRules, DeviceProtectionRules,
    TechSupportRules, StreamingTVRules, StreamingMoviesRules]

  lemma AddOnGroupsInRules(group: seq<IndicatorRule>)
    requires group in AddOnGroups
    ensures forall r :: r in group ==> r in IndicatorRules
  {
  }

  lemma AddOnGroupShape(group: seq<IndicatorRule>)
    requires group in AddOnGroups
    ensures |group| == 3 && IsAddOn(group[0].field)
    ensures group[0].value == "No" && group[2].field == group[0].field && group[2].value == "Yes"
    ensures group[1].field == InternetService && group[1].value == "No"
    ensures group[0] in IndicatorRules && group[1] in IndicatorRules && group[2] in IndicatorRules
  {
    AddOnGroupsInRules(group);
  }

  /** An add-on's `_No` and `_Yes` indicators read only that add-on's own answer, so at most one of
      them is 1; its `_NoInternetService` indicator equals `InternetService_No`, whatever the add-on's
      own answer is. */
  lemma AddOnIndicators(form: Form, group: seq<IndicatorRule>)
    requires group in AddOnGroups
    ensures |group| == 3 && IsAddOn(group[0].field)
    ensures Lookup(Encode(form), group[0].key)
         == Some(Indicator(if Get(form, group[0].field) == "No" then 1 else 0))
    ensures Lookup(Encode(form), group[2].key)
         == Some(Indicator(if Get(form, group[0].field) == "Yes" then 1 else 0))
    ensures Lookup(Encode(form), group[1].key) == Lookup(Encode(form), "InternetService_No")
         == Some(Indicator(if form.internetService == "No" then 1 else 0))
  {
    AddOnGroupShape(group);
    LookupIndicator(form, group[0]);
    LookupIndicator(form, group[1]);
    LookupIndicator(form, group[2]);
    assert InternetServiceRules[2] in IndicatorRules;
    LookupIndicator(form, InternetServiceRules[2]);
  }

  /** The non-exclusivity the encoding keeps: with no internet service and an add-on answered
      "Yes", both that add-on's `_Yes` and its `_NoInternetService` indicators are 1. */
  lemma YesAndNoInternetTogether(form: Form, group: seq<IndicatorRule>)
    requires group in AddOnGroups
    requires form.internetService == "No" && Get(form, group[0].field) == "Yes"
    ensures Lookup(Encode(form), group[2].key) == Some(Indicator(1))
    ensures Lookup(Encode(form), group[1].key) == Some(Indicator(1))
  {
    AddOnIndicators(form, group);
  }

  // ---------------------------------------------------------------------------------------------
  // Editing the form

  /** A select's `onValueChange`: no effect while the select is disabled. */
  function ChooseOption(form: Form, f: Field, v: string): (r: Form)
    ensures Disabled(form, f) ==> r == form
    ensures !Disabled(form, f) ==> Get(r, f) == v
    ensures forall g: Field :: g != f ==> Get(r, g) == Get(form, g)
  {
    if Disabled(form, f) then form else Set(form, f, v)
  }

  /** Disabling an add-on does not exempt it from the submit guard: with no internet service an
      unanswered add-on can be filled by no select change, and submitting sends nothing until the
      internet service is changed. */
  lemma DisabledAddOnStillRequired(form: Form, a: Field, f: Field, v: string)
    requires IsAddOn(a) && form.internetService == "No" && Get(form, a) == ""
    requires f != InternetService
    ensures Disabled(form, a)
    ensures Get(ChooseOption(form, f, v), a) == ""
    ensures ChooseOption(form, f, v).internetService == "No"
    ensures PrepareRequest(ChooseOption(form, f, v)).None?
  {
    var r := ChooseOption(form, f, v);
    if f == a {
      assert r == form;
    } else {
      assert Get(r, a) == Get(form, a);
    }
    assert Get(r, InternetService) == Get(form, InternetService);
    assert MissingField(r).Some?;
  }

  /** The prediction form with its submission state. */
  datatype PredictOutcome =
    | Answered(churnPrediction: int, churnProbability: Option<real>)
    | Failed   // `predictChurn` threw, or returned null so that reading its result threw

  datatype Notice = MissingInformation | PredictionFailed

  /** The churn risk the form holds: `null` until an answer arrives, `undefined` when an answer
      carries no `churn_probability`, and otherwise the probability that came with it. */
  datatype Risk = NullRisk | UndefinedRisk | Probability(value: real)

  /** What `setChurnRisk(result.churn_probability)` stores: never `null`, `undefined` exactly
      when the answer has no probability. */
  function RiskOf(churnProbability: Option<real>): (r: Risk)
    ensures r != NullRisk
    ensures r == UndefinedRisk <==> churnProbability.None?
    ensures churnProbability.Some? ==> r == Probability(churnProbability.value)
  {
    match churnProbability
    case None => UndefinedRisk
    case Some(p) => Probability(p)
  }

  /** The result card's `churnRisk !== null`: the probability line is shown. */
  predicate ShowsProbability(risk: Risk)
  {
    risk != NullRisk
  }

  class PredictionForm {
    var formData: Form
    var isLoading: bool
    var prediction: Option<int>
    var churnRisk: Risk

    constructor ()
      ensures formData == EmptyForm && !isLoading && prediction == None && churnRisk == NullRisk
      ensures !ShowsProbability(churnRisk)
    {
      formData := EmptyForm;
      isLoading := false;
      prediction := None;
      churnRisk := NullRisk;
    }

    /** `handleChange`: the field named by the element id takes the new value; an id that names no
        field leaves all sixteen fields as they were. */
    method HandleChange(id: string, value: string)
      modifies this`formData
      ensures FieldNamed(id).Some? ==> formData == Set(old(formData), FieldNamed(id).value, value)
      ensures FieldNamed(id).None? ==> formData == old(formData)
    {
      var f := FieldNamed(id);
      if f.Some? {
        formData := Set(formData, f.value, value);
      }
    }

    /** A select's `onValueChange`, which the select only fires while enabled. */
    method SelectValue(f: Field, value: string)
      modifies this`formData
      ensures formData == ChooseOption(old(formData), f, value)
    {
      formData := ChooseOption(formData, f, value);
    }

    /** `handleSubmit` with the endpoint's answer as input: returns the record sent (none when a
        field is missing) and the notification raised, if any. */
    method HandleSubmit(outcome: PredictOutcome) returns (sent: Option<FeatureVector>, notice: Option<Notice>)
      modifies this`isLoading, this`prediction, this`churnRisk
      ensures sent == PrepareRequest(formData)
      ensures sent.None? ==>
                notice == Some(MissingInformation) && isLoading == old(isLoading)
                && prediction == old(prediction) && churnRisk == old(churnRisk)
      ensures sent.Some? ==> !isLoading
      ensures sent.Some? && outcome.Answered? ==>
                notice == None && prediction == Some(outcome.churnPrediction)
                && churnRisk == RiskOf(outcome.churnProbability) && ShowsProbability(churnRisk)
      ensures sent.Some? && outcome.Failed? ==>
                notice == Some(PredictionFailed) && prediction == old(prediction)
                && churnRisk == old(churnRisk)
    {
      sent := PrepareRequest(formData);
      if sent.None? {
        notice := Some(MissingInformation);
        return;
      }
      isLoading := true;
      match outcome {
        case Answered(p, prob) =>
          prediction := Some(p);
          churnRisk := RiskOf(prob);
          notice := None;
        case Failed =>
          notice := Some(PredictionFailed);
      }
      isLoading := false;
    }
  }
}
