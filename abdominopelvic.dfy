/**
 * The abdominopelvic-surgery indicators: PSI-14 postoperative wound dehiscence and
 * PSI-15 accidental puncture or laceration.
 */
module AbdominopelvicIndicators {
  import opened Wrappers
  import opened Scans
  import opened CodeSets
  import opened Encounter
  import opened Dates
  import opened Verdicts
  import opened Criteria
  import opened Assigners

  // ---------------------------------------------------------------- PSI-14

  const Psi14NoSurgery := "Denominator Exclusion: No qualifying abdominopelvic procedure found"
  const Psi14MissingDate := "Data Exclusion: Missing date for initial abdominopelvic procedure"
  const Psi14EarlyReclosure := "Denominator Exclusion: Reclosure procedure occurred on or before initial abdominopelvic surgery"
  const Psi14Dehiscence := "Denominator Exclusion: Wound dehiscence diagnosis ("
  const Psi14CountedPrefix := "Inclusion: Postoperative wound dehiscence - Stratum: "
  const Psi14NotCounted := "Exclusion: No qualifying postoperative wound dehiscence found"

  /** The earlier of the first open and the first non-open abdominopelvic procedure dates. */
  function InitialSurgery(firstOpen: Option<int>, firstOther: Option<int>): (r: Option<int>)
    ensures r.None? <==> firstOpen.None? && firstOther.None?
    ensures firstOpen.Some? ==> r.Some? && r.value <= firstOpen.value
    ensures firstOther.Some? ==> r.Some? && r.value <= firstOther.value
    ensures r == firstOpen || r == firstOther
  {
    if firstOpen.Some? && firstOther.Some? then
      if firstOpen.value <= firstOther.value then firstOpen else firstOther
    else if firstOpen.Some? then firstOpen
    else firstOther
  }

  function Psi14DxRule(cs: Registry, principal: DxEntry): DxEntry -> Option<Verdict>
  {
    (d: DxEntry) =>
      if d.code in Lookup(cs, "ABWALLCD") && PrincipalOrOnAdmission(d, principal) then
        Some(Exclude(Psi14Dehiscence + d.code + OnAdmissionOrPrincipalSuffix))
      else None
  }

  /** The exclusions of PSI-14 in order, before its numerator; `None` when the case passes them all. */
  function Psi14Screen(cs: Registry, row: Row): Option<Verdict>
  {
    var dxs := AllDiagnoses(row);
    var ps := AllProcedures(row);
    var firstOpen := FirstProcedureDate(cs, ps, "ABDOMIPOPEN");
    var firstOther := FirstProcedureDate(cs, ps, "ABDOMIPOTHER");
    var initial := InitialSurgery(firstOpen, firstOther);
    var lastReclosure := LatestProcedureDate(cs, ps, "RECLOIP");
    if dxs == [] then Some(NoDiagnoses)
    else if firstOpen.None? && firstOther.None? then Some(Exclude(Psi14NoSurgery))
    else if initial.None? then Some(Exclude(Psi14MissingDate))
    else if !StayAtLeast(row, 2) then Some(Exclude(ShortStayUnder2))
    else if lastReclosure.Some? && lastReclosure.value <= initial.value then Some(Exclude(Psi14EarlyReclosure))
    else FirstSome(dxs, Psi14DxRule(cs, dxs[0]), 0)
  }

  /** Whatever the screen stops at is an exclusion. */
  lemma Psi14ScreenExcludes(cs: Registry, row: Row)
    ensures Psi14Screen(cs, row).Some? ==> Psi14Screen(cs, row).value.status == Exclusion
  {
    var dxs := AllDiagnoses(row);
    if dxs != [] && FirstSome(dxs, Psi14DxRule(cs, dxs[0]), 0).Some? {
      FirstSomeWitness(dxs, Psi14DxRule(cs, dxs[0]), 0);
    }
  }

  /** PSI-14 as written: any `RECLOIP` procedure counts, whether its date resolved or not. */
  function Psi14AsWritten(cs: Registry, row: Row): Verdict
  {
    var dxs := AllDiagnoses(row);
    var ps := AllProcedures(row);
    match Psi14Screen(cs, row)
    case Some(v) => v
    case None =>
      if AnyProcIn(ps, Lookup(cs, "RECLOIP")) && AnySecondaryNotPoaIn(dxs, Lookup(cs, "ABWALLCD")) then
        Include(Psi14CountedPrefix + Psi14Stratum(cs, ps))
      else Exclude(Psi14NotCounted)
  }

  /**
   * PSI-14 with the reclosure the timing check can see: the latest `RECLOIP` date must
   * have resolved, so that the screen has compared it with the initial surgery.
   */
  function Psi14(cs: Registry, row: Row): Verdict
  {
    var dxs := AllDiagnoses(row);
    var ps := AllProcedures(row);
    match Psi14Screen(cs, row)
    case Some(v) => v
    case None =>
      if LatestProcedureDate(cs, ps, "RECLOIP").Some? && AnySecondaryNotPoaIn(dxs, Lookup(cs, "ABWALLCD")) then
        Include(Psi14CountedPrefix + Psi14Stratum(cs, ps))
      else Exclude(Psi14NotCounted)
  }

  /**
   * A PSI-14 case counts only with a dated reclosure later than the initial
   * abdominopelvic surgery, a secondary dehiscence not present on admission, a stay of
   * at least two days, and a known approach stratum.
   */
  lemma Psi14ReclosureFollowsSurgery(cs: Registry, row: Row)
    requires Psi14(cs, row).status == Inclusion
    ensures var dxs, ps := AllDiagnoses(row), AllProcedures(row);
            var initial := InitialSurgery(FirstProcedureDate(cs, ps, "ABDOMIPOPEN"), FirstProcedureDate(cs, ps, "ABDOMIPOTHER"));
            && initial.Some?
            && StayAtLeast(row, 2)
            && AnySecondaryNotPoaIn(dxs, Lookup(cs, "ABWALLCD"))
            && (exists k :: 0 <= k < |ps| && DatedIn(ps[k], Lookup(cs, "RECLOIP")) && ps[k].date.value > initial.value)
            && Psi14Stratum(cs, ps) != "unknown_approach"
            && Psi14(cs, row).reason == Psi14CountedPrefix + Psi14Stratum(cs, ps)
  {
    var ps := AllProcedures(row);
    var firstOpen := FirstProcedureDate(cs, ps, "ABDOMIPOPEN");
    var firstOther := FirstProcedureDate(cs, ps, "ABDOMIPOTHER");
    Psi14ScreenExcludes(cs, row);
    LatestProcedureDateCharacterized(cs, ps, "RECLOIP");
    FirstProcedureDateCharacterized(cs, ps, "ABDOMIPOPEN");
    FirstProcedureDateCharacterized(cs, ps, "ABDOMIPOTHER");
  }

  /**
   * As written, a case can count with no dated reclosure at all, so the timing check
   * never saw it: the undated `RECLOIP` alone satisfies the numerator, while the
   * corrected rule rejects the same case.
   */
  lemma Psi14AsWrittenCountsUndatedReclosure(cs: Registry, row: Row)
    requires Psi14Screen(cs, row).None?
    requires AnySecondaryNotPoaIn(AllDiagnoses(row), Lookup(cs, "ABWALLCD"))
    requires AnyProcIn(AllProcedures(row), Lookup(cs, "RECLOIP"))
    requires forall k :: 0 <= k < |AllProcedures(row)| && AllProcedures(row)[k].code in Lookup(cs, "RECLOIP") ==>
               AllProcedures(row)[k].date.None?
    ensures Psi14AsWritten(cs, row).status == Inclusion
    ensures Psi14(cs, row).status == Exclusion
  {
    LatestProcedureDateCharacterized(cs, AllProcedures(row), "RECLOIP");
  }

  /** With every reclosure dated, the corrected rule and the rule as written agree. */
  lemma Psi14AgreesWhenReclosuresDated(cs: Registry, row: Row)
    requires forall k :: 0 <= k < |AllProcedures(row)| && AllProcedures(row)[k].code in Lookup(cs, "RECLOIP") ==>
               AllProcedures(row)[k].date.Some?
    ensures Psi14AsWritten(cs, row) == Psi14(cs, row)
  {
    var ps := AllProcedures(row);
    LatestProcedureDateCharacterized(cs, ps, "RECLOIP");
    if AnyProcIn(ps, Lookup(cs, "RECLOIP")) {
      var k :| 0 <= k < |ps| && ps[k].code in Lookup(cs, "RECLOIP");
      assert DatedIn(ps[k], Lookup(cs, "RECLOIP"));
    }
  }

  // ---------------------------------------------------------------- PSI-15

  const Psi15NoIndex := "Denominator Exclusion: No qualifying abdominopelvic procedure (ABDOMI15P) or missing date"
  const Psi15PrincipalInjury := "Denominator Exclusion: Principal diagnosis is accidental puncture/laceration ("
  const Psi15InjuryOnAdmission := "Denominator Exclusion: POA accidental puncture/laceration ("
  const Psi15WithRepairSuffix := ") with matching related procedure"
  const Psi15CountedPrefix := "Inclusion: Abdominopelvic accidental puncture/laceration - Risk Category: "
  const Psi15NotCounted := "Exclusion: No qualifying abdominopelvic accidental puncture/laceration found"

  /** One to thirty days after the index procedure, both ends included. */
  const RepairWindow: Window := Window(Some(1), Some(30), true, true)

  /** The entry is an organ injury, and a repair procedure for the same organ falls in the repair window. */
  predicate InjuryWithRepair(cs: Registry, ps: seq<ProcEntry>, index: Option<int>, d: DxEntry)
  {
    var organ := OrganSystemOf(cs, d.code, true);
    organ.Some? && ProcedureInWindow(cs, ps, index, organ.value.procCodes, RepairWindow)
  }

  /**
   * The numerator scan over one secondary entry: an injury with a repair in the window
   * excludes the case when present on admission and counts it otherwise; any other
   * entry is passed over.
   */
  function Psi15InjuryRule(cs: Registry, ps: seq<ProcEntry>, index: Option<int>): DxEntry -> Option<Verdict>
  {
    (d: DxEntry) =>
      if !InjuryWithRepair(cs, ps, index, d) then None
      else if IsPoaY(d.poa) then Some(Exclude(Psi15InjuryOnAdmission + d.code + Psi15WithRepairSuffix))
      else Some(Include(Psi15CountedPrefix + Psi15RiskCategory(cs, ps, index)))
  }

  /** PSI-15; `injury` is the calculator's union of the organ systems' injury codes. */
  function Psi15(cs: Registry, injury: set<string>, row: Row): Verdict
  {
    var dxs := AllDiagnoses(row);
    var ps := AllProcedures(row);
    var index := FirstProcedureDate(cs, ps, "ABDOMI15P");
    if !SurgicalOrMedicalDrg(cs, row) then Exclude(NotSurgicalOrMedicalDrg)
    else if dxs == [] then NoDiagnoses
    else if index.None? then Exclude(Psi15NoIndex)
    else if dxs[0].code != "" && dxs[0].code in injury then Exclude(Psi15PrincipalInjury + dxs[0].code + ")")
    else
      match FirstSome(dxs, Psi15InjuryRule(cs, ps, index), 1)
      case Some(v) => v
      case None => Exclude(Psi15NotCounted)
  }

  /**
   * PSI-15 counts a case exactly when its DRG is surgical or medical, it has a dated
   * index procedure, the principal diagnosis is not an injury, and the first secondary
   * injury with a same-organ repair one to thirty days after the index procedure is not
   * present on admission. A counted case reports its complexity category.
   */
  lemma Psi15Counts(cs: Registry, injury: set<string>, row: Row)
    ensures var dxs, ps := AllDiagnoses(row), AllProcedures(row);
            var index := FirstProcedureDate(cs, ps, "ABDOMI15P");
            Psi15(cs, injury, row).status == Inclusion <==>
              && SurgicalOrMedicalDrg(cs, row)
              && dxs != []
              && index.Some?
              && !(dxs[0].code != "" && dxs[0].code in injury)
              && exists k :: 1 <= k < |dxs| && InjuryWithRepair(cs, ps, index, dxs[k]) && !IsPoaY(dxs[k].poa) &&
                   forall j :: 1 <= j < k ==> !InjuryWithRepair(cs, ps, index, dxs[j])
    ensures Psi15(cs, injury, row).status == Inclusion ==>
              Psi15(cs, injury, row).reason ==
                Psi15CountedPrefix + Psi15RiskCategory(cs, AllProcedures(row), FirstProcedureDate(cs, AllProcedures(row), "ABDOMI15P"))
  {
    var dxs, ps := AllDiagnoses(row), AllProcedures(row);
    var index := FirstProcedureDate(cs, ps, "ABDOMI15P");
    var rule := Psi15InjuryRule(cs, ps, index);
    var hit := FirstSome(dxs, rule, 1);
    if hit.Some? {
      FirstSomeWitness(dxs, rule, 1);
    }
    if exists k :: 1 <= k < |dxs| && InjuryWithRepair(cs, ps, index, dxs[k]) && !IsPoaY(dxs[k].poa) &&
                   forall j :: 1 <= j < k ==> !InjuryWithRepair(cs, ps, index, dxs[j]) {
      var k :| 1 <= k < |dxs| && InjuryWithRepair(cs, ps, index, dxs[k]) && !IsPoaY(dxs[k].poa) &&
               forall j :: 1 <= j < k ==> !InjuryWithRepair(cs, ps, index, dxs[j]);
      FirstSomeAt(dxs, rule, 1, k);
    }
  }

  /**
   * An injury present on admission never makes the case count: when it is the first
   * secondary injury with a repair in the window, the case is excluded.
   */
  lemma Psi15InjuryOnAdmissionExcludes(cs: Registry, injury: set<string>, row: Row, k: nat)
    requires var dxs, ps := AllDiagnoses(row), AllProcedures(row);
             var index := FirstProcedureDate(cs, ps, "ABDOMI15P");
             && 1 <= k < |dxs|
             && InjuryWithRepair(cs, ps, index, dxs[k]) && IsPoaY(dxs[k].poa)
             && forall j :: 1 <= j < k ==> !InjuryWithRepair(cs, ps, index, dxs[j])
    ensures Psi15(cs, injury, row).status == Exclusion
  {
    var dxs, ps := AllDiagnoses(row), AllProcedures(row);
    var index := FirstProcedureDate(cs, ps, "ABDOMI15P");
    FirstSomeAt(dxs, Psi15InjuryRule(cs, ps, index), 1, k);
  }

  /** A counted case has a secondary injury code from the consolidated injury set that is not present on admission. */
  lemma Psi15CountsOnlyHospitalInjuries(cs: Registry, injury: set<string>, row: Row)
    requires Psi15(cs, injury, row).status == Inclusion
    ensures var dxs := AllDiagnoses(row);
            exists k :: 1 <= k < |dxs| && dxs[k].code in Psi15InjuryCodes(cs) && !IsPoaY(dxs[k].poa)
  {
    Psi15Counts(cs, injury, row);
    var dxs, ps := AllDiagnoses(row), AllProcedures(row);
    var index := FirstProcedureDate(cs, ps, "ABDOMI15P");
    var k :| 1 <= k < |dxs| && InjuryWithRepair(cs, ps, index, dxs[k]) && !IsPoaY(dxs[k].poa) &&
             forall j :: 1 <= j < k ==> !InjuryWithRepair(cs, ps, index, dxs[j]);
    InjuryCodeHasOrganSystem(cs, dxs[k].code);
  }
}
