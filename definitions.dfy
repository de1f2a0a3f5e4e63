/**
 * The indicator definition catalog, as far as the calculator reads it: the
 * population type, the data-quality rules that list extra required fields, the
 * timing and length-of-stay flags, the denominator inclusion criteria, and the
 * PSI-04 strata with their exclusion texts. From these the calculator derives
 * the list of fields an encounter must hold.
 */
module Definitions {
  import opened Wrappers

  /** `indicator.population_type`; `OtherPopulation` is a missing or unrecognised value. */
  datatype PopulationType =
    | Adult
    | NewbornOnly
    | MaternalObstetric
    | ElectiveSurgicalOnly
    | SurgicalOnly
    | AbdominopelvicSurgical
    | MedicalAndSurgical
    | OtherPopulation

  /** One rule of an exclusion group; `fields` holds the `name`s of its `fields` list, if it has one. */
  datatype FieldRule = FieldRule(description: string, fields: Option<seq<string>>)

  datatype ExclusionGroup = ExclusionGroup(category: string, rules: seq<FieldRule>)

  /** One denominator inclusion criterion: its `type` and `description`. */
  datatype Criterion = Criterion(kind: string, description: string)

  /**
   * One PSI-04 stratum exclusion text, as the phrases the evaluator looks for in it:
   * `principalOf`/`anyOf` hold the code-set name written after "Principal diagnosis of"
   * or "Any diagnosis of", and each flag says whether the text contains the phrase
   * "Esophageal varices with bleeding", "MDC 4 (Respiratory)", "MDC 5 (Circulatory)",
   * "MDC 6 (Digestive)", "MDC 7 (Hepatobiliary)" or "Any procedure for lung cancer".
   */
  datatype StratumText = StratumText(
    principalOf: Option<string>,
    anyOf: Option<string>,
    varicesWithBleeding: bool,
    mdcRespiratory: bool,
    mdcCirculatory: bool,
    mdcDigestive: bool,
    mdcHepatobiliary: bool,
    lungCancerProcedure: bool)

  datatype IndicatorDef = IndicatorDef(
    population: PopulationType,
    exclusionCriteria: seq<ExclusionGroup>,
    requiresProcedureTiming: bool,
    requiresTimeWindows: bool,
    requiresMinimumLos: bool,
    denominatorInclusion: seq<Criterion>,
    strata: map<string, seq<StratumText>>)

  /** Indicator id (`PSI_02`, ...) to its definition. */
  type Catalog = map<string, IndicatorDef>

  /** What `psi_definitions.get(psi_code, {})` reads as when the id is not in the catalog. */
  const NoDefinition: IndicatorDef := IndicatorDef(OtherPopulation, [], false, false, false, [], map[])

  function DefOf(cat: Catalog, psi: string): IndicatorDef
  {
    if psi in cat then cat[psi] else NoDefinition
  }

  /** The exclusion texts of a PSI-04 stratum; none when the stratum is not defined. */
  function StratumTexts(cat: Catalog, stratumName: string): seq<StratumText>
  {
    var d := DefOf(cat, "PSI_04");
    if stratumName in d.strata then d.strata[stratumName] else []
  }

  /** Whether the definition admits obstetric patients of any age. */
  predicate AllowsObstetricAnyAge(d: IndicatorDef)
  {
    exists k :: 0 <= k < |d.denominatorInclusion| &&
                d.denominatorInclusion[k] == Criterion("age", "obstetric patients of any age")
  }

  const CoreRequiredFields: seq<string> := ["EncounterID", "AGE", "SEX", "MS-DRG", "MDC", "Pdx", "POA1"]

  /** Append `f` unless it is already listed. */
  function AddField(fs: seq<string>, f: string): seq<string>
  {
    if f in fs then fs else fs + [f]
  }

  /** Add each of `more` in order, skipping the ones already listed. */
  function AddFields(fs: seq<string>, more: seq<string>): seq<string>
    decreases |more|
  {
    if more == [] then fs else AddField(AddFields(fs, more[..|more| - 1]), more[|more| - 1])
  }

  /** Whether a rule lists required fields: described as missing required fields and holding a field list. */
  predicate ListsRequiredFields(r: FieldRule)
  {
    r.description == "Missing required fields" && r.fields.Some?
  }

  /** The field names the rules list, in order. */
  function RuleFieldNames(rules: seq<FieldRule>): seq<string>
    decreases |rules|
  {
    if rules == [] then []
    else
      var r := rules[|rules| - 1];
      RuleFieldNames(rules[..|rules| - 1]) + (if ListsRequiredFields(r) then r.fields.value else [])
  }

  /** The field names the `data_quality` groups list, in order. */
  function DataQualityFieldNames(groups: seq<ExclusionGroup>): seq<string>
    decreases |groups|
  {
    if groups == [] then []
    else
      var g := groups[|groups| - 1];
      DataQualityFieldNames(groups[..|groups| - 1]) +
        (if g.category == "data_quality" then RuleFieldNames(g.rules) else [])
  }

  /** Whether the definition asks for the admission and discharge dates. */
  predicate NeedsDates(d: IndicatorDef)
  {
    d.requiresProcedureTiming || d.requiresTimeWindows
  }

  /**
   * The fields an encounter must hold for the indicator: the core seven, then the
   * data-quality fields, then the two dates when timing is required, then the length
   * of stay when a minimum stay is required, each listed once.
   */
  function RequiredFields(d: IndicatorDef): seq<string>
  {
    var withQuality := AddFields(CoreRequiredFields, DataQualityFieldNames(d.exclusionCriteria));
    var withDates := if NeedsDates(d) then AddField(AddField(withQuality, "Admission_Date"), "Discharge_Date")
                     else withQuality;
    if d.requiresMinimumLos then AddField(withDates, "Length_of_stay") else withDates
  }

  predicate NoDuplicates(fs: seq<string>)
  {
    forall i, j :: 0 <= i < j < |fs| ==> fs[i] != fs[j]
  }

  lemma AddFieldProperties(fs: seq<string>, f: string)
    ensures forall x :: x in AddField(fs, f) <==> x in fs || x == f
    ensures NoDuplicates(fs) ==> NoDuplicates(AddField(fs, f))
    ensures |fs| <= |AddField(fs, f)| && AddField(fs, f)[..|fs|] == fs
  {
  }

  lemma {:induction false} AddFieldsProperties(fs: seq<string>, more: seq<string>)
    ensures forall x :: x in AddFields(fs, more) <==> x in fs || x in more
    ensures NoDuplicates(fs) ==> NoDuplicates(AddFields(fs, more))
    ensures |fs| <= |AddFields(fs, more)| && AddFields(fs, more)[..|fs|] == fs
    decreases |more|
  {
    if more != [] {
      var init := more[..|more| - 1];
      AddFieldsProperties(fs, init);
      AddFieldProperties(AddFields(fs, init), more[|more| - 1]);
      assert more == init + [more[|more| - 1]];
      var prev := AddFields(fs, init);
      assert AddFields(fs, more)[..|prev|] == prev;
      assert AddFields(fs, more)[..|fs|] == prev[..|fs|];
    }
  }

  lemma {:induction false} AddFieldsAppend(fs: seq<string>, a: seq<string>, b: seq<string>)
    ensures AddFields(fs, a + b) == AddFields(AddFields(fs, a), b)
    decreases |b|
  {
    if b == [] {
      assert a + b == a;
    } else {
      var init := b[..|b| - 1];
      assert (a + b)[..|a + b| - 1] == a + init;
      assert (a + b)[|a + b| - 1] == b[|b| - 1];
      AddFieldsAppend(fs, a, init);
    }
  }

  lemma CoreHasNoDuplicates()
    ensures NoDuplicates(CoreRequiredFields)
  {
  }

  /**
   * A field is required exactly when it is a core field, a data-quality field, one of
   * the two dates of an indicator that needs them, or the length of stay of one that
   * needs a minimum stay.
   */
  lemma RequiredFieldsMembership(d: IndicatorDef)
    ensures forall f :: f in RequiredFields(d) <==>
      || f in CoreRequiredFields
      || f in DataQualityFieldNames(d.exclusionCriteria)
      || (NeedsDates(d) && (f == "Admission_Date" || f == "Discharge_Date"))
      || (d.requiresMinimumLos && f == "Length_of_stay")
  {
    var q := AddFields(CoreRequiredFields, DataQualityFieldNames(d.exclusionCriteria));
    AddFieldsProperties(CoreRequiredFields, DataQualityFieldNames(d.exclusionCriteria));
    AddFieldProperties(q, "Admission_Date");
    AddFieldProperties(AddField(q, "Admission_Date"), "Discharge_Date");
    var w := if NeedsDates(d) then AddField(AddField(q, "Admission_Date"), "Discharge_Date") else q;
    AddFieldProperties(w, "Length_of_stay");
  }

  /** No field is listed twice, and the core seven come first, in their order. */
  lemma RequiredFieldsShape(d: IndicatorDef)
    ensures NoDuplicates(RequiredFields(d))
    ensures |CoreRequiredFields| <= |RequiredFields(d)| && RequiredFields(d)[..|CoreRequiredFields|] == CoreRequiredFields
  {
    CoreHasNoDuplicates();
    var q := AddFields(CoreRequiredFields, DataQualityFieldNames(d.exclusionCriteria));
    AddFieldsProperties(CoreRequiredFields, DataQualityFieldNames(d.exclusionCriteria));
    AddFieldProperties(q, "Admission_Date");
    AddFieldProperties(AddField(q, "Admission_Date"), "Discharge_Date");
    var w := if NeedsDates(d) then AddField(AddField(q, "Admission_Date"), "Discharge_Date") else q;
    AddFieldProperties(w, "Length_of_stay");
    assert |q| <= |w| && w[..|q|] == q;
    assert RequiredFields(d)[..|w|] == w;
    assert RequiredFields(d)[..|CoreRequiredFields|] == w[..|CoreRequiredFields|];
  }
}
