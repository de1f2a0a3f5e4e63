/**
 * The exclusions applied before any indicator-specific logic: missing required
 * fields, the age floor by population type (with the obstetric-any-age allowance),
 * newborn and obstetric discharges by MDC and principal diagnosis, and the
 * ungroupable DRG.
 */
module BaseExclusions {
  import opened Wrappers
  import opened Scans
  import opened CodeSets
  import opened Encounter
  import opened Definitions
  import opened Verdicts

  /** The test the required-field scan applies to one field. */
  function MissingCheck(row: Row): string -> Option<string>
  {
    f => if HasField(row, f) then None else Some(f)
  }

  /** The first of `fields` the row lacks. */
  function FirstMissing(row: Row, fields: seq<string>): Option<string>
  {
    FirstSome(fields, MissingCheck(row), 0)
  }

  /** Which base exclusion applies. */
  datatype BaseRule =
    | MissingField(field: string)
    | InvalidAge
    | UnderAge
    | NewbornDischarge
    | ObstetricDischarge
    | UngroupableDrg
  {
    function Reason(): string
    {
      match this
      case MissingField(f) => "Data Exclusion: Missing required field '" + f + "'"
      case InvalidAge => "Data Exclusion: Invalid or missing 'AGE'"
      case UnderAge => "Population Exclusion: Age < 18"
      case NewbornDischarge => "Population Exclusion: MDC 15 - Newborn (principal dx in MDC15PRINDX)"
      case ObstetricDischarge => "Population Exclusion: MDC 14 - Obstetric (principal dx in MDC14PRINDX)"
      case UngroupableDrg => "Data Exclusion: DRG is ungroupable (999)"
    }
  }

  /** MDC 14 with a principal diagnosis (non-empty) in `MDC14PRINDX`. */
  predicate IsObstetricMdc14(cs: Registry, row: Row)
  {
    row.mdc == Some(14) && row.pdx.Some? && row.pdx.value != "" && row.pdx.value in Lookup(cs, "MDC14PRINDX")
  }

  /** Whether the age floor of the population type excludes this age. */
  predicate AgeFloorExcludes(cs: Registry, d: IndicatorDef, row: Row, age: int)
  {
    match d.population
    case Adult => age < 18
    case NewbornOnly => false
    case OtherPopulation => false
    case _ => !(IsObstetricMdc14(cs, row) && AllowsObstetricAnyAge(d)) && age < 18
  }

  /** MDC 15 with a principal diagnosis in `MDC15PRINDX`, for an indicator that is not newborn-only. */
  predicate NewbornExcludes(cs: Registry, d: IndicatorDef, row: Row)
  {
    row.mdc == Some(15) && row.pdx.Some? && row.pdx.value in Lookup(cs, "MDC15PRINDX") && d.population != NewbornOnly
  }

  /** MDC 14 with a principal diagnosis in `MDC14PRINDX`, for an indicator that is not maternal-obstetric. */
  predicate ObstetricExcludes(cs: Registry, d: IndicatorDef, row: Row)
  {
    row.mdc == Some(14) && row.pdx.Some? && row.pdx.value in Lookup(cs, "MDC14PRINDX") && d.population != MaternalObstetric
  }

  /** The first base exclusion that applies to the encounter for the indicator, in the order they are checked. */
  function BaseRuleFor(cs: Registry, cat: Catalog, row: Row, psi: string): Option<BaseRule>
  {
    var d := DefOf(cat, psi);
    var missing := FirstMissing(row, RequiredFields(d));
    if missing.Some? then Some(MissingField(missing.value))
    else if row.age.None? then Some(InvalidAge)
    else if AgeFloorExcludes(cs, d, row, row.age.value) then Some(UnderAge)
    else if NewbornExcludes(cs, d, row) then Some(NewbornDischarge)
    else if ObstetricExcludes(cs, d, row) then Some(ObstetricDischarge)
    else if DrgText(row) == "999" then Some(UngroupableDrg)
    else None
  }

  /** The `(status, reason)` the base check returns; `None` lets evaluation go on. */
  function BaseExclusion(cs: Registry, cat: Catalog, row: Row, psi: string): (r: Option<Verdict>)
    ensures r.Some? ==> r.value.status == Exclusion
    ensures r.None? <==> BaseRuleFor(cs, cat, row, psi).None?
  {
    match BaseRuleFor(cs, cat, row, psi)
    case Some(rule) => Some(Exclude(rule.Reason()))
    case None => None
  }

  /**
   * An encounter passes the base exclusions exactly when it holds every required field,
   * its age clears the population's floor, it is neither a newborn nor an obstetric
   * discharge the indicator excludes, and its DRG is not 999.
   */
  lemma BaseExclusionPasses(cs: Registry, cat: Catalog, row: Row, psi: string)
    ensures BaseRuleFor(cs, cat, row, psi).None? <==>
      && (forall f :: f in RequiredFields(DefOf(cat, psi)) ==> HasField(row, f))
      && row.age.Some?
      && !AgeFloorExcludes(cs, DefOf(cat, psi), row, row.age.value)
      && !NewbornExcludes(cs, DefOf(cat, psi), row)
      && !ObstetricExcludes(cs, DefOf(cat, psi), row)
      && DrgText(row) != "999"
  {
    var fs := RequiredFields(DefOf(cat, psi));
    FirstSomeNone(fs, MissingCheck(row), 0);
    RequiredFieldsMembership(DefOf(cat, psi));
    assert "AGE" in CoreRequiredFields;
    if forall f :: f in fs ==> HasField(row, f) {
      assert HasField(row, "AGE");
    }
  }

  /** A missing required field is reported, and it is the first missing one in the required order. */
  lemma MissingFieldReported(cs: Registry, cat: Catalog, row: Row, psi: string, f: string)
    requires f in RequiredFields(DefOf(cat, psi)) && !HasField(row, f)
    ensures exists k :: 0 <= k < |RequiredFields(DefOf(cat, psi))| &&
              !HasField(row, RequiredFields(DefOf(cat, psi))[k]) &&
              (forall j :: 0 <= j < k ==> HasField(row, RequiredFields(DefOf(cat, psi))[j])) &&
              BaseRuleFor(cs, cat, row, psi) == Some(MissingField(RequiredFields(DefOf(cat, psi))[k]))
  {
    var fs := RequiredFields(DefOf(cat, psi));
    var m := FirstSome(fs, MissingCheck(row), 0);
    FirstSomeNone(fs, MissingCheck(row), 0);
    var i :| 0 <= i < |fs| && fs[i] == f;
    assert MissingCheck(row)(fs[i]).Some?;
    FirstSomeWitness(fs, MissingCheck(row), 0);
    var k :| 0 <= k < |fs| && MissingCheck(row)(fs[k]) == m &&
             forall j :: 0 <= j < k ==> MissingCheck(row)(fs[j]).None?;
    assert !HasField(row, fs[k]);
  }

  /** A newborn-only indicator never excludes for age or for a newborn discharge. */
  lemma NewbornIndicatorKeepsNewborns(cs: Registry, cat: Catalog, row: Row, psi: string)
    requires DefOf(cat, psi).population == NewbornOnly
    ensures BaseRuleFor(cs, cat, row, psi) != Some(UnderAge)
    ensures BaseRuleFor(cs, cat, row, psi) != Some(NewbornDischarge)
  {
  }

  /** A maternal-obstetric indicator never excludes an obstetric discharge as such. */
  lemma ObstetricIndicatorKeepsObstetric(cs: Registry, cat: Catalog, row: Row, psi: string)
    requires DefOf(cat, psi).population == MaternalObstetric
    ensures BaseRuleFor(cs, cat, row, psi) != Some(ObstetricDischarge)
  {
  }

  /** For an adult indicator, a complete row under 18 is excluded for age. */
  lemma AdultUnder18Excluded(cs: Registry, cat: Catalog, row: Row, psi: string)
    requires DefOf(cat, psi).population == Adult
    requires forall f :: f in RequiredFields(DefOf(cat, psi)) ==> HasField(row, f)
    requires row.age.Some? && row.age.value < 18
    ensures BaseRuleFor(cs, cat, row, psi) == Some(UnderAge)
  {
    FirstSomeNone(RequiredFields(DefOf(cat, psi)), MissingCheck(row), 0);
  }

  /**
   * For the surgical, obstetric and mixed population types, a complete row under 18
   * escapes the age floor exactly when it is an MDC 14 obstetric discharge and the
   * definition admits obstetric patients of any age.
   */
  lemma ObstetricAnyAgeAllowance(cs: Registry, cat: Catalog, row: Row, psi: string)
    requires DefOf(cat, psi).population in {MaternalObstetric, ElectiveSurgicalOnly, SurgicalOnly, AbdominopelvicSurgical, MedicalAndSurgical}
    requires forall f :: f in RequiredFields(DefOf(cat, psi)) ==> HasField(row, f)
    requires row.age.Some? && row.age.value < 18
    ensures BaseRuleFor(cs, cat, row, psi) == Some(UnderAge) <==>
              !(IsObstetricMdc14(cs, row) && AllowsObstetricAnyAge(DefOf(cat, psi)))
  {
    FirstSomeNone(RequiredFields(DefOf(cat, psi)), MissingCheck(row), 0);
  }
}
