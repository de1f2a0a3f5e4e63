/**
 * The two mortality indicators: PSI-02, death in a low-mortality DRG, and PSI-04,
 * death among surgical inpatients with a serious treatable complication.
 */
module MortalityIndicators {
  import opened Wrappers
  import opened Scans
  import opened CodeSets
  import opened Encounter
  import opened Dates
  import opened Definitions
  import opened Verdicts
  import opened Criteria
  import opened Assigners

  // ---------------------------------------------------------------- PSI-02

  // Reason texts of PSI-02.
  const Psi02NotLowMortality := "Denominator Exclusion: Not a low-mortality DRG"
  const Psi02Trauma := "Denominator Exclusion: Trauma diagnosis present ("
  const Psi02Cancer := "Denominator Exclusion: Cancer diagnosis present ("
  const Psi02Immune := "Denominator Exclusion: Immunocompromised diagnosis present ("
  const Psi02ImmuneProc := "Denominator Exclusion: Immunocompromising procedure present ("
  const Psi02Hospice := "Denominator Exclusion: Admission from hospice facility"
  const Psi02Transfer := "Population Exclusion: Transfer to acute care facility (Discharge_Disposition=2)"
  const Psi02Death := "Inclusion: Death disposition (DISP=20)"
  const Psi02NotDeath := "Exclusion: Not a death disposition (DISP!=20) but in denominator"

  /** The clinical diagnosis exclusions of PSI-02, checked per diagnosis in this order. */
  function Psi02DxRule(cs: Registry): DxEntry -> Option<Verdict>
  {
    (d: DxEntry) =>
      if d.code in Lookup(cs, "TRAUMID") then Some(Exclude(Psi02Trauma + d.code + ")"))
      else if d.code in Lookup(cs, "CANCEID") then Some(Exclude(Psi02Cancer + d.code + ")"))
      else if d.code in Lookup(cs, "IMMUNID") then Some(Exclude(Psi02Immune + d.code + ")"))
      else None
  }

  function Psi02ProcRule(cs: Registry): ProcEntry -> Option<Verdict>
  {
    (p: ProcEntry) =>
      if p.code in Lookup(cs, "IMMUNIP") then Some(Exclude(Psi02ImmuneProc + p.code + ")"))
      else None
  }

  function Psi02(cs: Registry, row: Row): Verdict
  {
    var dxHit := FirstSome(AllDiagnoses(row), Psi02DxRule(cs), 0);
    var procHit := FirstSome(AllProcedures(row), Psi02ProcRule(cs), 0);
    if DrgText(row) !in Lookup(cs, "LOWMODR") then Exclude(Psi02NotLowMortality)
    else if dxHit.Some? then dxHit.value
    else if procHit.Some? then procHit.value
    else if row.pointOfOrigin == Some("F") then Exclude(Psi02Hospice)
    else if row.disposition == Some(2) then Exclude(Psi02Transfer)
    else if row.disposition == Some(20) then Include(Psi02Death)
    else Exclude(Psi02NotDeath)
  }

  /**
   * PSI-02 counts a case exactly when its DRG is low-mortality, no diagnosis is trauma,
   * cancer or immunocompromise, no procedure is immunocompromising, the patient was not
   * admitted from hospice, and the disposition is death (20).
   */
  lemma Psi02Counts(cs: Registry, row: Row)
    ensures Psi02(cs, row).status == Inclusion <==>
      && DrgText(row) in Lookup(cs, "LOWMODR")
      && !AnyDxIn(AllDiagnoses(row), Lookup(cs, "TRAUMID") + Lookup(cs, "CANCEID") + Lookup(cs, "IMMUNID"))
      && !AnyProcIn(AllProcedures(row), Lookup(cs, "IMMUNIP"))
      && row.pointOfOrigin != Some("F")
      && row.disposition == Some(20)
  {
    var dxs, ps := AllDiagnoses(row), AllProcedures(row);
    FirstSomeNone(dxs, Psi02DxRule(cs), 0);
    FirstSomeNone(ps, Psi02ProcRule(cs), 0);
    var dxHit := FirstSome(dxs, Psi02DxRule(cs), 0);
    if dxHit.Some? {
      FirstSomeWitness(dxs, Psi02DxRule(cs), 0);
    }
    var procHit := FirstSome(ps, Psi02ProcRule(cs), 0);
    if procHit.Some? {
      FirstSomeWitness(ps, Psi02ProcRule(cs), 0);
    }
  }

  // ---------------------------------------------------------------- PSI-04

  /** MDC 14 with the first diagnosis (non-empty) in `MDC14PRINDX`. */
  predicate Psi04Obstetric(cs: Registry, row: Row, dxs: seq<DxEntry>)
  {
    row.mdc == Some(14) && PrincipalIn(dxs, Lookup(cs, "MDC14PRINDX"))
  }

  /** The first OR procedure came no more than 2 days after a known admission date. */
  predicate OrWithinTwoDays(row: Row, firstOr: Option<int>)
  {
    var d := DaysBetween(AdmissionDate(row), firstOr);
    d.Some? && d.value <= 2
  }

  // Reason texts of PSI-04 (named, so that proofs about the decision do not unfold them).
  const Psi04AgeOutOfRange := "Population Exclusion: Age not 18-89 and not an obstetric patient"
  const Psi04NotTimely := "Denominator Exclusion: Not elective admission and first OR not within 2 days of admission"
  const Psi04Transfer := "Overall Exclusion: Transfer to acute care facility (Discharge_Disposition=2)"
  const Psi04Hospice := "Overall Exclusion: Admission from hospice facility"
  const Psi04Newborn := "Overall Exclusion: MDC 15 - Newborn (principal dx in MDC15PRINDX)"
  const Psi04NoComplication := "Exclusion: No serious treatable complication identified"
  const Psi04DeathPrefix := "Inclusion: Death among surgical inpatients with "
  const Psi04NotDeathPrefix := "Exclusion: Not a death disposition (DISP!=20) but in "
  const Psi04NotDeathSuffix := " denominator"

  function Psi04(cs: Registry, cat: Catalog, row: Row): Verdict
  {
    var dxs := AllDiagnoses(row);
    var ps := AllProcedures(row);
    var firstOr := FirstProcedureDate(cs, ps, "ORPROC");
    if dxs == [] then NoDiagnoses
    else if !SurgicalDrg(cs, row) then Exclude(NotSurgicalDrg)
    else if !Psi04Obstetric(cs, row, dxs) && (row.age.None? || !(18 <= row.age.value <= 89)) then
      Exclude(Psi04AgeOutOfRange)
    else if firstOr.None? then Exclude(NoOrProcedure)
    else if !(ElectiveAdmission(row) || OrWithinTwoDays(row, firstOr)) then Exclude(Psi04NotTimely)
    else if row.disposition == Some(2) then Exclude(Psi04Transfer)
    else if row.pointOfOrigin == Some("F") then Exclude(Psi04Hospice)
    else if row.mdc == Some(15) && PrincipalIn(dxs, Lookup(cs, "MDC15PRINDX")) then Exclude(Psi04Newborn)
    else
      match AssignedStratum(cs, cat, dxs, ps, firstOr, row.mdc)
      case None => Exclude(Psi04NoComplication)
      case Some(s) =>
        if row.disposition == Some(20) then Include(Psi04DeathPrefix + s.Label())
        else Exclude(Psi04NotDeathPrefix + s.Label() + Psi04NotDeathSuffix)
  }

  /**
   * PSI-04 counts a case exactly when it has diagnoses and a surgical DRG, the patient
   * is aged 18 to 89 or obstetric, there is an OR procedure that was elective or within
   * two days of admission, the patient died (disposition 20), did not come from hospice
   * and is not a newborn, and some stratum is assigned. A counted case names its
   * stratum, which is the first one in priority order that the case qualifies for.
   */
  lemma Psi04Counts(cs: Registry, cat: Catalog, row: Row)
    ensures var dxs, ps := AllDiagnoses(row), AllProcedures(row);
            var firstOr := FirstProcedureDate(cs, ps, "ORPROC");
            Psi04(cs, cat, row).status == Inclusion <==>
              && dxs != []
              && SurgicalDrg(cs, row)
              && (Psi04Obstetric(cs, row, dxs) || (row.age.Some? && 18 <= row.age.value <= 89))
              && firstOr.Some?
              && (ElectiveAdmission(row) || OrWithinTwoDays(row, firstOr))
              && row.disposition == Some(20)
              && row.pointOfOrigin != Some("F")
              && !(row.mdc == Some(15) && PrincipalIn(dxs, Lookup(cs, "MDC15PRINDX")))
              && AssignedStratum(cs, cat, dxs, ps, firstOr, row.mdc).Some?
    ensures var dxs, ps := AllDiagnoses(row), AllProcedures(row);
            var firstOr := FirstProcedureDate(cs, ps, "ORPROC");
            Psi04(cs, cat, row).status == Inclusion ==>
              && Psi04(cs, cat, row).reason == Psi04DeathPrefix + AssignedStratum(cs, cat, dxs, ps, firstOr, row.mdc).value.Label()
              && exists k :: 0 <= k < |StrataPriority| &&
                   AssignedStratum(cs, cat, dxs, ps, firstOr, row.mdc) == Some(StrataPriority[k]) &&
                   QualifiesForStratum(cs, cat, StrataPriority[k], dxs, ps, firstOr, row.mdc) &&
                   forall j :: 0 <= j < k ==> !QualifiesForStratum(cs, cat, StrataPriority[j], dxs, ps, firstOr, row.mdc)
  {
    var dxs, ps := AllDiagnoses(row), AllProcedures(row);
    var firstOr := FirstProcedureDate(cs, ps, "ORPROC");
    AssignedStratumIsHighestQualifying(cs, cat, dxs, ps, firstOr, row.mdc);
  }
}
