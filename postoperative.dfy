/**
 * The postoperative indicators of surgical discharges, all timed against the first
 * OR procedure: PSI-09 hemorrhage or hematoma, PSI-10 kidney injury requiring
 * dialysis, PSI-11 respiratory failure, PSI-12 pulmonary embolism or deep vein
 * thrombosis and PSI-13 sepsis.
 */
module PostoperativeIndicators {
  import opened Wrappers
  import opened Scans
  import opened CodeSets
  import opened Encounter
  import opened Dates
  import opened Verdicts
  import opened Criteria
  import opened Assigners

  // ---------------------------------------------------------------- PSI-09

  const Psi09NoOrTiming := "Denominator Exclusion: No qualifying OR procedure found for timing reference"
  const Psi09Coagulation := "Denominator Exclusion: Coagulation disorder diagnosis present ("
  const Psi09MedBleed := "Denominator Exclusion: Medication-related coagulopathy ("
  const Psi09Thrombolytic := "Denominator Exclusion: Thrombolytic medication before or same day as hemorrhage treatment"
  const Psi09Hemorrhage := "Inclusion: Postoperative hemorrhage/hematoma with treatment (secondary, not POA)"
  const Psi09NoHemorrhage := "Exclusion: No qualifying postoperative hemorrhage/hematoma found with required treatment and timing"

  function Psi09DxRule(cs: Registry, principal: DxEntry): DxEntry -> Option<Verdict>
  {
    (d: DxEntry) =>
      if d.code in Lookup(cs, "COAGDID") then Some(Exclude(Psi09Coagulation + d.code + ")"))
      else if d.code in Lookup(cs, "MEDBLEEDD") && PrincipalOrOnAdmission(d, principal) then
        Some(Exclude(Psi09MedBleed + d.code + OnAdmissionOrPrincipalSuffix))
      else None
  }

  /** A thrombolytic on or before the day of the first hemorrhage treatment, when there is a dated one. */
  predicate ThrombolyticBeforeTreatment(cs: Registry, ps: seq<ProcEntry>)
  {
    var firstTreatment := FirstProcedureDate(cs, ps, "HEMOTH2P");
    firstTreatment.Some? && ProcedureInWindow(cs, ps, firstTreatment, "THROMBOLYTICP", OnOrBefore)
  }

  function Psi09(cs: Registry, row: Row): Verdict
  {
    var dxs := AllDiagnoses(row);
    var ps := AllProcedures(row);
    var firstOr := FirstProcedureDate(cs, ps, "ORPROC");
    if !SurgicalDrg(cs, row) then Exclude(NotSurgicalDrg)
    else if dxs == [] then NoDiagnoses
    else if firstOr.None? then Exclude(Psi09NoOrTiming)
    else
      var dxHit := FirstSome(dxs, Psi09DxRule(cs, dxs[0]), 0);
      if dxHit.Some? then dxHit.value
      else if ThrombolyticBeforeTreatment(cs, ps) then Exclude(Psi09Thrombolytic)
      else if AnySecondaryNotPoaIn(dxs, Lookup(cs, "POHMRI2D")) &&
              ProcedureInWindow(cs, ps, firstOr, "HEMOTH2P", StrictlyAfter) then Include(Psi09Hemorrhage)
      else Exclude(Psi09NoHemorrhage)
  }

  /**
   * PSI-09 counts a case exactly when its DRG is surgical, it has a dated OR procedure,
   * no diagnosis is a coagulation disorder, no medication-related coagulopathy is
   * principal or present on admission, no thrombolytic precedes the first treatment, a
   * secondary hemorrhage is not present on admission, and a treatment procedure falls
   * on a later day than the first OR procedure.
   */
  lemma Psi09Counts(cs: Registry, row: Row)
    ensures var dxs, ps := AllDiagnoses(row), AllProcedures(row);
            var firstOr := FirstProcedureDate(cs, ps, "ORPROC");
            Psi09(cs, row).status == Inclusion <==>
              && SurgicalDrg(cs, row)
              && dxs != []
              && firstOr.Some?
              && !AnyDxIn(dxs, Lookup(cs, "COAGDID"))
              && (forall k :: 0 <= k < |dxs| && dxs[k].code in Lookup(cs, "MEDBLEEDD") ==>
                    !PrincipalOrOnAdmission(dxs[k], dxs[0]))
              && !ThrombolyticBeforeTreatment(cs, ps)
              && AnySecondaryNotPoaIn(dxs, Lookup(cs, "POHMRI2D"))
              && ProcedureInWindow(cs, ps, firstOr, "HEMOTH2P", StrictlyAfter)
  {
    var dxs := AllDiagnoses(row);
    if dxs != [] {
      var rule := Psi09DxRule(cs, dxs[0]);
      FirstSomeNone(dxs, rule, 0);
      if FirstSome(dxs, rule, 0).Some? {
        FirstSomeWitness(dxs, rule, 0);
      }
    }
  }

  /**
   * A counted hemorrhage was treated after surgery: some treatment procedure has a
   * resolved date at least one whole day after the first OR procedure.
   */
  lemma Psi09TreatmentFollowsSurgery(cs: Registry, row: Row)
    requires Psi09(cs, row).status == Inclusion
    ensures var ps := AllProcedures(row);
            var firstOr := FirstProcedureDate(cs, ps, "ORPROC");
            firstOr.Some? &&
            exists k :: 0 <= k < |ps| && DatedIn(ps[k], Lookup(cs, "HEMOTH2P")) &&
              ps[k].date.value >= firstOr.value + MinutesPerDay
  {
    Psi09Counts(cs, row);
  }

  // ---------------------------------------------------------------- PSI-10

  const Psi10KidneyFailure := "Denominator Exclusion: Acute kidney failure ("
  const Psi10Cardiac := "Denominator Exclusion: Cardiac condition ("
  const Psi10Shock := "Denominator Exclusion: Shock condition ("
  const Psi10ChronicKidney := "Denominator Exclusion: Chronic kidney disease ("
  const Psi10Obstruction := "Denominator Exclusion: Principal diagnosis is urinary tract obstruction ("
  const Psi10EarlyDialysis := "Denominator Exclusion: Dialysis procedure before or same day as first OR procedure"
  const Psi10EarlyAccess := "Denominator Exclusion: Dialysis access procedure before or same day as first OR procedure"
  const Psi10SolitaryKidney := "Denominator Exclusion: Solitary kidney present on admission with nephrectomy procedure"
  const Psi10Aki := "Inclusion: Postoperative acute kidney injury requiring dialysis"
  const Psi10NoAki := "Exclusion: No qualifying postoperative acute kidney injury requiring dialysis found"

  function Psi10DxRule(cs: Registry, principal: DxEntry): DxEntry -> Option<Verdict>
  {
    (d: DxEntry) =>
      var early := PrincipalOrOnAdmission(d, principal);
      if d.code in Lookup(cs, "PHYSIDB") && early then
        Some(Exclude(Psi10KidneyFailure + d.code + OnAdmissionOrPrincipalSuffix))
      else if (d.code in Lookup(cs, "CARDIID") || d.code in Lookup(cs, "CARDRID")) && early then
        Some(Exclude(Psi10Cardiac + d.code + OnAdmissionOrPrincipalSuffix))
      else if d.code in Lookup(cs, "SHOCKID") && early then
        Some(Exclude(Psi10Shock + d.code + OnAdmissionOrPrincipalSuffix))
      else if d.code in Lookup(cs, "CRENLFD") && early then
        Some(Exclude(Psi10ChronicKidney + d.code + OnAdmissionOrPrincipalSuffix))
      else if d == principal && d.code in Lookup(cs, "URINARYOBSID") then
        Some(Exclude(Psi10Obstruction + d.code + ")"))
      else None
  }

  /** The diagnosis exclusions of PSI-10 as one condition on an entry. */
  predicate Psi10DxExcludes(cs: Registry, d: DxEntry, principal: DxEntry)
  {
    || (d.code in Lookup(cs, "PHYSIDB") + Lookup(cs, "CARDIID") + Lookup(cs, "CARDRID") +
                  Lookup(cs, "SHOCKID") + Lookup(cs, "CRENLFD") && PrincipalOrOnAdmission(d, principal))
    || (d == principal && d.code in Lookup(cs, "URINARYOBSID"))
  }

  function Psi10(cs: Registry, row: Row): Verdict
  {
    var dxs := AllDiagnoses(row);
    var ps := AllProcedures(row);
    var firstOr := FirstProcedureDate(cs, ps, "ORPROC");
    if dxs == [] then NoDiagnoses
    else if !SurgicalDrg(cs, row) then Exclude(NotSurgicalDrg)
    else if !ElectiveAdmission(row) then Exclude(NotElective)
    else if firstOr.None? then Exclude(NoOrProcedure)
    else
      var dxHit := FirstSome(dxs, Psi10DxRule(cs, dxs[0]), 0);
      if dxHit.Some? then dxHit.value
      else if ProcedureInWindow(cs, ps, firstOr, "DIALYIP", OnOrBefore) then Exclude(Psi10EarlyDialysis)
      else if ProcedureInWindow(cs, ps, firstOr, "DIALY2P", OnOrBefore) then Exclude(Psi10EarlyAccess)
      else if AnyDxPoaYIn(dxs, Lookup(cs, "SOLKIDD")) && AnyProcIn(ps, Lookup(cs, "PNEPHREP")) then
        Exclude(Psi10SolitaryKidney)
      else if AnySecondaryNotPoaIn(dxs, Lookup(cs, "PHYSIDB")) &&
              ProcedureInWindow(cs, ps, firstOr, "DIALYIP", StrictlyAfter) then Include(Psi10Aki)
      else Exclude(Psi10NoAki)
  }

  /**
   * PSI-10 counts a case exactly when it is an elective surgical admission with a dated
   * OR procedure, no diagnosis exclusion applies, no dialysis or dialysis access falls on
   * or before the day of surgery, it is not a solitary kidney with nephrectomy, a
   * secondary acute kidney failure is not present on admission, and dialysis follows on
   * a later day.
   */
  lemma Psi10Counts(cs: Registry, row: Row)
    ensures var dxs, ps := AllDiagnoses(row), AllProcedures(row);
            var firstOr := FirstProcedureDate(cs, ps, "ORPROC");
            Psi10(cs, row).status == Inclusion <==>
              && dxs != []
              && SurgicalDrg(cs, row)
              && ElectiveAdmission(row)
              && firstOr.Some?
              && (forall k :: 0 <= k < |dxs| ==> !Psi10DxExcludes(cs, dxs[k], dxs[0]))
              && !ProcedureInWindow(cs, ps, firstOr, "DIALYIP", OnOrBefore)
              && !ProcedureInWindow(cs, ps, firstOr, "DIALY2P", OnOrBefore)
              && !(AnyDxPoaYIn(dxs, Lookup(cs, "SOLKIDD")) && AnyProcIn(ps, Lookup(cs, "PNEPHREP")))
              && AnySecondaryNotPoaIn(dxs, Lookup(cs, "PHYSIDB"))
              && ProcedureInWindow(cs, ps, firstOr, "DIALYIP", StrictlyAfter)
  {
    var dxs := AllDiagnoses(row);
    if dxs != [] {
      var rule := Psi10DxRule(cs, dxs[0]);
      FirstSomeNone(dxs, rule, 0);
      assert forall k :: 0 <= k < |dxs| ==> (rule(dxs[k]).None? <==> !Psi10DxExcludes(cs, dxs[k], dxs[0]));
      if FirstSome(dxs, rule, 0).Some? {
        FirstSomeWitness(dxs, rule, 0);
      }
    }
  }

  // ---------------------------------------------------------------- PSI-11

  const Psi11RespiratoryFailure := "Denominator Exclusion: Acute respiratory failure ("
  const Psi11Tracheostomy := "Denominator Exclusion: Tracheostomy diagnosis ("
  const OnAdmissionOnlySuffix := ") present on admission"
  const Psi11Hyperthermia := "Denominator Exclusion: Malignant hyperthermia diagnosis present ("
  const Psi11Neuromuscular := "Denominator Exclusion: Neuromuscular disorder ("
  const Psi11Degenerative := "Denominator Exclusion: Degenerative neurological disorder ("
  const Psi11OnlyTracheostomy := "Denominator Exclusion: Only OR procedure is tracheostomy"
  const Psi11EarlyTracheostomy := "Denominator Exclusion: Tracheostomy procedure before first OR procedure"
  const Psi11HighRisk := "Denominator Exclusion: High-risk surgery procedure present ("
  const Psi11Respiratory := "Denominator Exclusion: MDC 4 (Diseases & Disorders of the Respiratory System)"
  const Psi11Failure := "Inclusion: Postoperative respiratory failure"
  const Psi11NoFailure := "Exclusion: No qualifying postoperative respiratory complication found"

  function Psi11DxRule(cs: Registry, principal: DxEntry): DxEntry -> Option<Verdict>
  {
    (d: DxEntry) =>
      if d.code in Lookup(cs, "ACURF3D") && PrincipalOrOnAdmission(d, principal) then
        Some(Exclude(Psi11RespiratoryFailure + d.code + OnAdmissionOrPrincipalSuffix))
      else if d.code in Lookup(cs, "TRACHID") && IsPoaY(d.poa) then
        Some(Exclude(Psi11Tracheostomy + d.code + OnAdmissionOnlySuffix))
      else if d.code in Lookup(cs, "MALHYPD") then Some(Exclude(Psi11Hyperthermia + d.code + ")"))
      else if d.code in Lookup(cs, "NEUROMD") && IsPoaY(d.poa) then
        Some(Exclude(Psi11Neuromuscular + d.code + OnAdmissionOnlySuffix))
      else if d.code in Lookup(cs, "DGNEUID") && IsPoaY(d.poa) then
        Some(Exclude(Psi11Degenerative + d.code + OnAdmissionOnlySuffix))
      else None
  }

  /** The diagnosis exclusions of PSI-11 as one condition on an entry. */
  predicate Psi11DxExcludes(cs: Registry, d: DxEntry, principal: DxEntry)
  {
    || (d.code in Lookup(cs, "ACURF3D") && PrincipalOrOnAdmission(d, principal))
    || (d.code in Lookup(cs, "TRACHID") + Lookup(cs, "NEUROMD") + Lookup(cs, "DGNEUID") && IsPoaY(d.poa))
    || d.code in Lookup(cs, "MALHYPD")
  }

  /** The high-risk surgery sets of PSI-11. */
  function HighRiskSurgery(cs: Registry): set<string>
  {
    Lookup(cs, "NUCRANP") + Lookup(cs, "PRESOPP") + Lookup(cs, "LUNGCIP") + Lookup(cs, "LUNGTRANSP")
  }

  function Psi11ProcRule(cs: Registry): ProcEntry -> Option<Verdict>
  {
    (p: ProcEntry) =>
      if p.code in HighRiskSurgery(cs) then Some(Exclude(Psi11HighRisk + p.code + ")")) else None
  }

  /** The codes, in order, of the procedures that are OR procedures, dated or not. */
  function OrCodes(orSet: set<string>, ps: seq<ProcEntry>): seq<string>
    decreases |ps|
  {
    if ps == [] then []
    else
      var p := ps[|ps| - 1];
      OrCodes(orSet, ps[..|ps| - 1]) + (if p.code in orSet then [p.code] else [])
  }

  /** The collected OR codes are exactly the OR-set codes of the procedures, and there are no more of them. */
  lemma {:induction false} OrCodesMembers(orSet: set<string>, ps: seq<ProcEntry>)
    ensures |OrCodes(orSet, ps)| <= |ps|
    ensures forall c :: c in OrCodes(orSet, ps) <==> c in orSet && exists k :: 0 <= k < |ps| && ps[k].code == c
    decreases |ps|
  {
    if ps != [] {
      var init := ps[..|ps| - 1];
      OrCodesMembers(orSet, init);
      assert forall k :: 0 <= k < |init| ==> init[k] == ps[k];
    }
  }

  /** The only OR procedure code is a tracheostomy. */
  predicate OnlyOrIsTracheostomy(cs: Registry, ps: seq<ProcEntry>)
  {
    var ors := OrCodes(Lookup(cs, "ORPROC"), ps);
    |ors| == 1 && ors[0] in Lookup(cs, "TRACHIP")
  }

  /** The first dated tracheostomy is earlier (as a timestamp) than the first OR procedure. */
  predicate TracheostomyBeforeSurgery(cs: Registry, ps: seq<ProcEntry>, firstOr: Option<int>)
  {
    var firstTrach := FirstProcedureDate(cs, ps, "TRACHIP");
    firstTrach.Some? && firstOr.Some? && firstTrach.value < firstOr.value
  }

  /**
   * Any of the four postoperative respiratory complications: a secondary acute
   * postprocedural respiratory failure not present on admission, ventilation over 96
   * hours on or after the day of surgery, ventilation of 24 to 96 hours two or more
   * days after, or intubation one or more days after.
   */
  predicate RespiratoryComplication(cs: Registry, dxs: seq<DxEntry>, ps: seq<ProcEntry>, firstOr: Option<int>)
  {
    || AnySecondaryNotPoaIn(dxs, Lookup(cs, "ACURF2D"))
    || ProcedureInWindow(cs, ps, firstOr, "PR9672P", AtLeast(0, true))
    || ProcedureInWindow(cs, ps, firstOr, "PR9671P", AtLeast(2, true))
    || ProcedureInWindow(cs, ps, firstOr, "PR9604P", AtLeast(1, true))
  }

  function Psi11(cs: Registry, row: Row): Verdict
  {
    var dxs := AllDiagnoses(row);
    var ps := AllProcedures(row);
    var firstOr := FirstProcedureDate(cs, ps, "ORPROC");
    if dxs == [] then NoDiagnoses
    else if !SurgicalDrg(cs, row) then Exclude(NotSurgicalDrg)
    else if !ElectiveAdmission(row) then Exclude(NotElective)
    else if firstOr.None? then Exclude(NoOrProcedure)
    else
      var dxHit := FirstSome(dxs, Psi11DxRule(cs, dxs[0]), 0);
      var procHit := FirstSome(ps, Psi11ProcRule(cs), 0);
      if dxHit.Some? then dxHit.value
      else if OnlyOrIsTracheostomy(cs, ps) then Exclude(Psi11OnlyTracheostomy)
      else if TracheostomyBeforeSurgery(cs, ps, firstOr) then Exclude(Psi11EarlyTracheostomy)
      else if procHit.Some? then procHit.value
      else if row.mdc == Some(4) then Exclude(Psi11Respiratory)
      else if RespiratoryComplication(cs, dxs, ps, firstOr) then Include(Psi11Failure)
      else Exclude(Psi11NoFailure)
  }

  /**
   * PSI-11 counts a case exactly when it is an elective surgical admission with a dated
   * OR procedure, no diagnosis exclusion applies, the OR procedures are not a lone
   * tracheostomy, no tracheostomy precedes surgery, no high-risk surgery was done, the
   * MDC is not 4, and some respiratory complication followed.
   */
  lemma Psi11Counts(cs: Registry, row: Row)
    ensures var dxs, ps := AllDiagnoses(row), AllProcedures(row);
            var firstOr := FirstProcedureDate(cs, ps, "ORPROC");
            Psi11(cs, row).status == Inclusion <==>
              && dxs != []
              && SurgicalDrg(cs, row)
              && ElectiveAdmission(row)
              && firstOr.Some?
              && (forall k :: 0 <= k < |dxs| ==> !Psi11DxExcludes(cs, dxs[k], dxs[0]))
              && !OnlyOrIsTracheostomy(cs, ps)
              && !TracheostomyBeforeSurgery(cs, ps, firstOr)
              && !AnyProcIn(ps, HighRiskSurgery(cs))
              && row.mdc != Some(4)
              && RespiratoryComplication(cs, dxs, ps, firstOr)
  {
    var dxs, ps := AllDiagnoses(row), AllProcedures(row);
    if dxs != [] {
      var rule := Psi11DxRule(cs, dxs[0]);
      FirstSomeNone(dxs, rule, 0);
      FirstSomeNone(ps, Psi11ProcRule(cs), 0);
      assert forall k :: 0 <= k < |dxs| ==> (rule(dxs[k]).None? <==> !Psi11DxExcludes(cs, dxs[k], dxs[0]));
      if FirstSome(dxs, rule, 0).Some? {
        FirstSomeWitness(dxs, rule, 0);
      }
      if FirstSome(ps, Psi11ProcRule(cs), 0).Some? {
        FirstSomeWitness(ps, Psi11ProcRule(cs), 0);
      }
    }
  }

  // ---------------------------------------------------------------- PSI-12

  const Psi12EarlyFilter := "Denominator Exclusion: Vena cava interruption before or same day as first OR procedure"
  const Psi12EarlyThrombectomy := "Denominator Exclusion: Thrombectomy before or same day as first OR procedure"
  const Psi12PrincipalDvtPe := "Denominator Exclusion: Principal diagnosis is DVT/PE ("
  const Psi12DvtPeOnAdmission := "Denominator Exclusion: DVT/PE diagnosis ("
  const Psi12Heparin := "Denominator Exclusion: Heparin-induced thrombocytopenia ("
  const Psi12NeuroTrauma := "Denominator Exclusion: Acute brain or spinal injury ("
  const Psi12Ecmo := "Denominator Exclusion: ECMO procedure present ("
  const Psi12DvtPe := "Inclusion: Perioperative Pulmonary Embolism or Deep Vein Thrombosis (secondary, not POA)"
  const Psi12NoDvtPe := "Exclusion: No qualifying perioperative DVT/PE found"

  function DvtPeCodes(cs: Registry): set<string>
  {
    Lookup(cs, "DEEPVIB") + Lookup(cs, "PULMOID")
  }

  function Psi12DxRule(cs: Registry, principal: DxEntry): DxEntry -> Option<Verdict>
  {
    (d: DxEntry) =>
      if d == principal && d.code in DvtPeCodes(cs) then Some(Exclude(Psi12PrincipalDvtPe + d.code + ")"))
      else if d != principal && d.code in DvtPeCodes(cs) && IsPoaY(d.poa) then
        Some(Exclude(Psi12DvtPeOnAdmission + d.code + OnAdmissionSuffix))
      else if d != principal && d.code in Lookup(cs, "HITD") then Some(Exclude(Psi12Heparin + d.code + ") present"))
      else if d.code in Lookup(cs, "NEURTRAD") && IsPoaY(d.poa) then
        Some(Exclude(Psi12NeuroTrauma + d.code + OnAdmissionSuffix))
      else None
  }

  /** The diagnosis exclusions of PSI-12 as one condition on an entry. */
  predicate Psi12DxExcludes(cs: Registry, d: DxEntry, principal: DxEntry)
  {
    || (d.code in DvtPeCodes(cs) && PrincipalOrOnAdmission(d, principal))
    || (d != principal && d.code in Lookup(cs, "HITD"))
    || (d.code in Lookup(cs, "NEURTRAD") && IsPoaY(d.poa))
  }

  function Psi12ProcRule(cs: Registry): ProcEntry -> Option<Verdict>
  {
    (p: ProcEntry) =>
      if p.code in Lookup(cs, "ECMOP") then Some(Exclude(Psi12Ecmo + p.code + ")")) else None
  }

  function Psi12(cs: Registry, row: Row): Verdict
  {
    var dxs := AllDiagnoses(row);
    var ps := AllProcedures(row);
    var firstOr := FirstProcedureDate(cs, ps, "ORPROC");
    if !SurgicalDrg(cs, row) then Exclude(NotSurgicalDrg)
    else if dxs == [] then NoDiagnoses
    else if firstOr.None? then Exclude(NoOrProcedure)
    else if ProcedureInWindow(cs, ps, firstOr, "VENACIP", OnOrBefore) then Exclude(Psi12EarlyFilter)
    else if ProcedureInWindow(cs, ps, firstOr, "THROMP", OnOrBefore) then Exclude(Psi12EarlyThrombectomy)
    else if LateFirstOr(row, firstOr) then Exclude(LateSurgery)
    else
      var dxHit := FirstSome(dxs, Psi12DxRule(cs, dxs[0]), 0);
      var procHit := FirstSome(ps, Psi12ProcRule(cs), 0);
      if dxHit.Some? then dxHit.value
      else if procHit.Some? then procHit.value
      else if AnySecondaryNotPoaIn(dxs, DvtPeCodes(cs)) then Include(Psi12DvtPe)
      else Exclude(Psi12NoDvtPe)
  }

  /**
   * PSI-12 counts a case exactly when its DRG is surgical with a dated OR procedure, no
   * vena cava filter or thrombectomy falls on or before the day of surgery, surgery was
   * not ten or more days after a known admission date, no diagnosis exclusion applies,
   * no ECMO was done, and a secondary DVT or PE is not present on admission.
   */
  lemma Psi12Counts(cs: Registry, row: Row)
    ensures var dxs, ps := AllDiagnoses(row), AllProcedures(row);
            var firstOr := FirstProcedureDate(cs, ps, "ORPROC");
            Psi12(cs, row).status == Inclusion <==>
              && SurgicalDrg(cs, row)
              && dxs != []
              && firstOr.Some?
              && !ProcedureInWindow(cs, ps, firstOr, "VENACIP", OnOrBefore)
              && !ProcedureInWindow(cs, ps, firstOr, "THROMP", OnOrBefore)
              && !LateFirstOr(row, firstOr)
              && (forall k :: 0 <= k < |dxs| ==> !Psi12DxExcludes(cs, dxs[k], dxs[0]))
              && !AnyProcIn(ps, Lookup(cs, "ECMOP"))
              && AnySecondaryNotPoaIn(dxs, DvtPeCodes(cs))
  {
    var dxs, ps := AllDiagnoses(row), AllProcedures(row);
    if dxs != [] {
      var rule := Psi12DxRule(cs, dxs[0]);
      FirstSomeNone(dxs, rule, 0);
      FirstSomeNone(ps, Psi12ProcRule(cs), 0);
      assert forall k :: 0 <= k < |dxs| ==> (rule(dxs[k]).None? <==> !Psi12DxExcludes(cs, dxs[k], dxs[0]));
      if FirstSome(dxs, rule, 0).Some? {
        FirstSomeWitness(dxs, rule, 0);
      }
      if FirstSome(ps, Psi12ProcRule(cs), 0).Some? {
        FirstSomeWitness(ps, Psi12ProcRule(cs), 0);
      }
    }
  }

  // ---------------------------------------------------------------- PSI-13

  const Psi13PrincipalSepsis := "Denominator Exclusion: Principal diagnosis is sepsis or infection ("
  const Psi13SepsisOnAdmission := "Denominator Exclusion: Sepsis or infection diagnosis ("
  const Psi13SepsisPrefix := "Inclusion: Postoperative sepsis (secondary, not POA) - Risk Category: "
  const Psi13NoSepsis := "Exclusion: No qualifying postoperative sepsis found"

  function SepsisOrInfection(cs: Registry): set<string>
  {
    Lookup(cs, "SEPTI2D") + Lookup(cs, "INFECID")
  }

  function Psi13DxRule(cs: Registry, principal: DxEntry): DxEntry -> Option<Verdict>
  {
    (d: DxEntry) =>
      if d == principal && d.code in SepsisOrInfection(cs) then
        Some(Exclude(Psi13PrincipalSepsis + d.code + ")"))
      else if d != principal && d.code in SepsisOrInfection(cs) && IsPoaY(d.poa) then
        Some(Exclude(Psi13SepsisOnAdmission + d.code + OnAdmissionSuffix))
      else None
  }

  function Psi13(cs: Registry, row: Row): Verdict
  {
    var dxs := AllDiagnoses(row);
    var ps := AllProcedures(row);
    var firstOr := FirstProcedureDate(cs, ps, "ORPROC");
    if !SurgicalDrg(cs, row) then Exclude(NotSurgicalDrg)
    else if !ElectiveAdmission(row) then Exclude(NotElective)
    else if dxs == [] then NoDiagnoses
    else if firstOr.None? then Exclude(NoOrProcedure)
    else if LateFirstOr(row, firstOr) then Exclude(LateSurgery)
    else
      var dxHit := FirstSome(dxs, Psi13DxRule(cs, dxs[0]), 0);
      if dxHit.Some? then dxHit.value
      else if AnySecondaryNotPoaIn(dxs, Lookup(cs, "SEPTI2D")) then
        Include(Psi13SepsisPrefix + Psi13RiskCategory(cs, dxs, ps))
      else Exclude(Psi13NoSepsis)
  }

  /**
   * PSI-13 counts a case exactly when it is an elective surgical admission with a dated
   * OR procedure that was not ten or more days after a known admission date, no sepsis
   * or infection is principal or present on admission, and a secondary sepsis is not
   * present on admission; a counted case reports its immune-function risk category.
   */
  lemma Psi13Counts(cs: Registry, row: Row)
    ensures var dxs, ps := AllDiagnoses(row), AllProcedures(row);
            var firstOr := FirstProcedureDate(cs, ps, "ORPROC");
            Psi13(cs, row).status == Inclusion <==>
              && SurgicalDrg(cs, row)
              && ElectiveAdmission(row)
              && dxs != []
              && firstOr.Some?
              && !LateFirstOr(row, firstOr)
              && (forall k :: 0 <= k < |dxs| && dxs[k].code in SepsisOrInfection(cs) ==>
                    !PrincipalOrOnAdmission(dxs[k], dxs[0]))
              && AnySecondaryNotPoaIn(dxs, Lookup(cs, "SEPTI2D"))
    ensures Psi13(cs, row).status == Inclusion ==>
              Psi13(cs, row).reason == Psi13SepsisPrefix + Psi13RiskCategory(cs, AllDiagnoses(row), AllProcedures(row))
  {
    var dxs := AllDiagnoses(row);
    if dxs != [] {
      var rule := Psi13DxRule(cs, dxs[0]);
      FirstSomeNone(dxs, rule, 0);
      if FirstSome(dxs, rule, 0).Some? {
        FirstSomeWitness(dxs, rule, 0);
      }
    }
  }
}
