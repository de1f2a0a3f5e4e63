/**
 * Tests several indicators share: the DRG groups of the denominator, the principal
 * diagnosis (the first extracted entry), the admission date and type, and the
 * late-surgery window.
 */
module Criteria {
  import opened Wrappers
  import opened CodeSets
  import opened Encounter
  import opened Dates
  import opened Verdicts

  const NoDiagnoses: Verdict := Exclude("Data Exclusion: No diagnoses found")

  // Reason texts several evaluators share.
  const NotSurgicalDrg := "Denominator Exclusion: Not a surgical MS-DRG"
  const NotSurgicalOrMedicalDrg := "Denominator Exclusion: Not a surgical or medical MS-DRG"
  const NotElective := "Denominator Exclusion: Admission not elective (ATYPE != 3)"
  const NoOrProcedure := "Denominator Exclusion: No qualifying OR procedure found"
  const LateSurgery := "Denominator Exclusion: First OR procedure occurred 10 or more days after admission"
  const ShortStayUnder2 := "Denominator Exclusion: Length of stay less than 2 days or missing"
  const OnAdmissionSuffix := ") present on admission (POA=Y)"
  const OnAdmissionOrPrincipalSuffix := ") present on admission or as principal diagnosis"

  predicate SurgicalDrg(cs: Registry, row: Row)
  {
    DrgText(row) in Lookup(cs, "SURGI2R")
  }

  predicate SurgicalOrMedicalDrg(cs: Registry, row: Row)
  {
    DrgText(row) in Lookup(cs, "SURGI2R") || DrgText(row) in Lookup(cs, "MEDIC2R")
  }

  /** `principal_dx_code and principal_dx_code in S`: a non-empty principal code from the set. */
  predicate PrincipalIn(dxs: seq<DxEntry>, codes: set<string>)
  {
    |dxs| > 0 && dxs[0].code != "" && dxs[0].code in codes
  }

  /**
   * "Principal or present on admission": the entry equals the principal entry as a
   * value (same code and flag, wherever it sits), or is flagged `Y`.
   */
  predicate PrincipalOrOnAdmission(d: DxEntry, principal: DxEntry)
  {
    d == principal || IsPoaY(d.poa)
  }

  function AdmissionDate(row: Row): Option<int>
  {
    row.admissionDate.Resolve()
  }

  /** A known length of stay of at least `days` days. */
  predicate StayAtLeast(row: Row, days: int)
  {
    row.lengthOfStay.Some? && row.lengthOfStay.value >= days
  }

  /** Admission type 3. */
  predicate ElectiveAdmission(row: Row)
  {
    row.admissionType == Some(3)
  }

  /** The first OR procedure came 10 or more days after admission (unknown when either date is). */
  predicate LateFirstOr(row: Row, firstOr: Option<int>)
  {
    var d := DaysBetween(AdmissionDate(row), firstOr);
    d.Some? && d.value >= 10
  }

  /** A procedure window test with no procedure allowed after the reference day: `max_days=0`, inclusive. */
  const OnOrBefore: Window := AtMost(0, true)

  /** Strictly after the reference day: `min_days=0`, exclusive. */
  const StrictlyAfter: Window := AtLeast(0, false)
}
