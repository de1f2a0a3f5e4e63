/**
 * The hospital-acquired condition indicators of medical and surgical discharges:
 * PSI-03 pressure ulcer, PSI-05 retained surgical item, PSI-06 iatrogenic
 * pneumothorax, PSI-07 central-line bloodstream infection and PSI-08 in-hospital
 * fall with fracture.
 */
module HospitalAcquiredIndicators {
  import opened Wrappers
  import opened Scans
  import opened CodeSets
  import opened Encounter
  import opened Verdicts
  import opened Criteria

  // ---------------------------------------------------------------- PSI-03

  const Psi03ShortStay := "Denominator Exclusion: Length of stay less than 3 days or missing"
  const Psi03PrincipalUlcer := "Denominator Exclusion: Principal diagnosis is pressure ulcer/DTI ("
  const Psi03Burn := "Denominator Exclusion: Severe burn diagnosis present ("
  const Psi03Exfoliative := "Denominator Exclusion: Exfoliative skin disorder diagnosis present ("
  const Psi03Ulcer := "Inclusion: Hospital-acquired pressure ulcer (Stage 3/4 or Unstageable)"
  const Psi03NoUlcer := "Exclusion: No qualifying hospital-acquired pressure ulcer identified"

  /** The skin-condition exclusions of PSI-03, checked per diagnosis: burn, then exfoliative disorder. */
  function Psi03SkinRule(cs: Registry): DxEntry -> Option<Verdict>
  {
    (d: DxEntry) =>
      if d.code in Lookup(cs, "BURNDX") then Some(Exclude(Psi03Burn + d.code + ")"))
      else if d.code in Lookup(cs, "EXFOLIATXD") then Some(Exclude(Psi03Exfoliative + d.code + ")"))
      else None
  }

  /** A diagnosis from the named deep-tissue-injury set (known and non-empty) flagged present on admission. */
  predicate DtiPresentOnAdmission(cs: Registry, dxs: seq<DxEntry>, siteSet: string)
  {
    Lookup(cs, siteSet) != {} && AnyDxPoaYIn(dxs, Lookup(cs, siteSet))
  }

  /**
   * One entry of the numerator scan qualifies: it is not present on admission, and its
   * code is one of the unspecified-site names, or one of the specific-site names whose
   * same-site deep-tissue-injury set has no diagnosis present on admission. The code is
   * compared with the set names themselves, as the evaluator does.
   */
  predicate UlcerQualifies(cs: Registry, dxs: seq<DxEntry>, d: DxEntry)
  {
    && NotPoa(d.poa)
    && (|| d.code in UnspecifiedPuCodes
        || (d.code in AllSpecificPuCodes && AnatomicSiteMap[d.code] != "" &&
            !DtiPresentOnAdmission(cs, dxs, AnatomicSiteMap[d.code])))
  }

  predicate HasQualifyingUlcer(cs: Registry, dxs: seq<DxEntry>)
  {
    exists k :: 0 <= k < |dxs| && UlcerQualifies(cs, dxs, dxs[k])
  }

  /** PSI-03; `piExd` is the calculator's principal pressure-ulcer/deep-tissue-injury union. */
  function Psi03(cs: Registry, piExd: set<string>, row: Row): Verdict
  {
    var dxs := AllDiagnoses(row);
    var skinHit := FirstSome(dxs, Psi03SkinRule(cs), 0);
    if !SurgicalOrMedicalDrg(cs, row) then Exclude(NotSurgicalOrMedicalDrg)
    else if !StayAtLeast(row, 3) then Exclude(Psi03ShortStay)
    else if dxs == [] then NoDiagnoses
    else if dxs[0].code in piExd then Exclude(Psi03PrincipalUlcer + dxs[0].code + ")")
    else if skinHit.Some? then skinHit.value
    else if HasQualifyingUlcer(cs, dxs) then Include(Psi03Ulcer)
    else Exclude(Psi03NoUlcer)
  }

  /**
   * PSI-03 counts a case exactly when its DRG is surgical or medical, the stay is at least
   * three days, the principal diagnosis is not a pressure ulcer or deep tissue injury, no
   * diagnosis is a severe burn or exfoliative disorder, and some ulcer entry qualifies.
   */
  lemma Psi03Counts(cs: Registry, piExd: set<string>, row: Row)
    ensures var dxs := AllDiagnoses(row);
            Psi03(cs, piExd, row).status == Inclusion <==>
              && SurgicalOrMedicalDrg(cs, row)
              && StayAtLeast(row, 3)
              && dxs != []
              && dxs[0].code !in piExd
              && !AnyDxIn(dxs, Lookup(cs, "BURNDX") + Lookup(cs, "EXFOLIATXD"))
              && HasQualifyingUlcer(cs, dxs)
  {
    var dxs := AllDiagnoses(row);
    FirstSomeNone(dxs, Psi03SkinRule(cs), 0);
    if FirstSome(dxs, Psi03SkinRule(cs), 0).Some? {
      FirstSomeWitness(dxs, Psi03SkinRule(cs), 0);
    }
  }

  /**
   * A counted pressure ulcer is never present on admission, and a specific-site ulcer
   * counts only when no diagnosis of its same-site deep-tissue-injury set is present on
   * admission.
   */
  lemma Psi03UlcerIsHospitalAcquired(cs: Registry, piExd: set<string>, row: Row)
    requires Psi03(cs, piExd, row).status == Inclusion
    ensures var dxs := AllDiagnoses(row);
            exists k :: 0 <= k < |dxs| && NotPoa(dxs[k].poa) &&
              (|| dxs[k].code in UnspecifiedPuCodes
               || (dxs[k].code in AllSpecificPuCodes &&
                   forall j :: 0 <= j < |dxs| && dxs[j].code in Lookup(cs, AnatomicSiteMap[dxs[k].code]) ==>
                     !IsPoaY(dxs[j].poa)))
  {
    Psi03Counts(cs, piExd, row);
    var dxs := AllDiagnoses(row);
    var k :| 0 <= k < |dxs| && UlcerQualifies(cs, dxs, dxs[k]);
    assert NotPoa(dxs[k].poa);
  }

  /**
   * Because the numerator compares diagnosis codes with code-set names, a case counts
   * only when one of its diagnosis codes is literally such a name.
   */
  lemma Psi03NeedsCodeEqualToSetName(cs: Registry, piExd: set<string>, row: Row)
    requires Psi03(cs, piExd, row).status == Inclusion
    ensures exists k :: 0 <= k < |AllDiagnoses(row)| &&
              AllDiagnoses(row)[k].code in UnspecifiedPuCodes + AnatomicSiteMap.Keys
  {
    Psi03Counts(cs, piExd, row);
  }

  // ---------------------------------------------------------------- PSI-05

  const Psi05PrincipalItem := "Denominator Exclusion: Principal diagnosis is retained surgical item ("
  const Psi05ItemOnAdmission := "Denominator Exclusion: Retained surgical item diagnosis ("
  const Psi05Item := "Inclusion: Retained surgical item or unretrieved device fragment (not POA)"
  const Psi05NoItem := "Exclusion: No qualifying retained surgical item or unretrieved device fragment found"

  function Psi05PoaRule(cs: Registry): DxEntry -> Option<Verdict>
  {
    (d: DxEntry) =>
      if d.code in Lookup(cs, "FOREIID") && IsPoaY(d.poa) then
        Some(Exclude(Psi05ItemOnAdmission + d.code + OnAdmissionSuffix))
      else None
  }

  function Psi05(cs: Registry, row: Row): Verdict
  {
    var dxs := AllDiagnoses(row);
    var poaHit := FirstSome(dxs, Psi05PoaRule(cs), 0);
    if !SurgicalOrMedicalDrg(cs, row) then Exclude(NotSurgicalOrMedicalDrg)
    else if dxs == [] then NoDiagnoses
    else if PrincipalIn(dxs, Lookup(cs, "FOREIID")) then Exclude(Psi05PrincipalItem + dxs[0].code + ")")
    else if poaHit.Some? then poaHit.value
    else if AnySecondaryNotPoaIn(dxs, Lookup(cs, "FOREIID")) then Include(Psi05Item)
    else Exclude(Psi05NoItem)
  }

  /**
   * PSI-05 counts a case exactly when its DRG is surgical or medical, the principal
   * diagnosis is not a retained item, no retained-item diagnosis is present on
   * admission, and a secondary one is not present on admission.
   */
  lemma Psi05Counts(cs: Registry, row: Row)
    ensures var dxs := AllDiagnoses(row);
            Psi05(cs, row).status == Inclusion <==>
              && SurgicalOrMedicalDrg(cs, row)
              && dxs != []
              && !PrincipalIn(dxs, Lookup(cs, "FOREIID"))
              && !AnyDxPoaYIn(dxs, Lookup(cs, "FOREIID"))
              && AnySecondaryNotPoaIn(dxs, Lookup(cs, "FOREIID"))
  {
    var dxs := AllDiagnoses(row);
    FirstSomeNone(dxs, Psi05PoaRule(cs), 0);
    if FirstSome(dxs, Psi05PoaRule(cs), 0).Some? {
      FirstSomeWitness(dxs, Psi05PoaRule(cs), 0);
    }
  }

  // ---------------------------------------------------------------- PSI-06

  const Psi06Pneumothorax := "Denominator Exclusion: Non-traumatic pneumothorax ("
  const Psi06ChestTrauma := "Denominator Exclusion: Chest trauma diagnosis present ("
  const Psi06Effusion := "Denominator Exclusion: Pleural effusion diagnosis present ("
  const Psi06Thoracic := "Denominator Exclusion: Thoracic surgery procedure present ("
  const Psi06Cardiac := "Denominator Exclusion: Trans-pleural cardiac procedure present ("
  const Psi06Iatrogenic := "Inclusion: Iatrogenic pneumothorax (secondary, not POA)"
  const Psi06NoIatrogenic := "Exclusion: No qualifying iatrogenic pneumothorax found"

  function Psi06DxRule(cs: Registry, principal: DxEntry): DxEntry -> Option<Verdict>
  {
    (d: DxEntry) =>
      if d.code in Lookup(cs, "IATPTXD") && PrincipalOrOnAdmission(d, principal) then
        Some(Exclude(Psi06Pneumothorax + d.code + OnAdmissionOrPrincipalSuffix))
      else if d.code in Lookup(cs, "CTRAUMD") then Some(Exclude(Psi06ChestTrauma + d.code + ")"))
      else if d.code in Lookup(cs, "PLEURAD") then Some(Exclude(Psi06Effusion + d.code + ")"))
      else None
  }

  function Psi06ProcRule(cs: Registry): ProcEntry -> Option<Verdict>
  {
    (p: ProcEntry) =>
      if p.code in Lookup(cs, "THORAIP") then Some(Exclude(Psi06Thoracic + p.code + ")"))
      else if p.code in Lookup(cs, "CARDSIP") then Some(Exclude(Psi06Cardiac + p.code + ")"))
      else None
  }

  function Psi06(cs: Registry, row: Row): Verdict
  {
    var dxs := AllDiagnoses(row);
    var ps := AllProcedures(row);
    if !SurgicalOrMedicalDrg(cs, row) then Exclude(NotSurgicalOrMedicalDrg)
    else if dxs == [] then NoDiagnoses
    else
      var dxHit := FirstSome(dxs, Psi06DxRule(cs, dxs[0]), 0);
      var procHit := FirstSome(ps, Psi06ProcRule(cs), 0);
      if dxHit.Some? then dxHit.value
      else if procHit.Some? then procHit.value
      else if AnySecondaryNotPoaIn(dxs, Lookup(cs, "IATROID")) then Include(Psi06Iatrogenic)
      else Exclude(Psi06NoIatrogenic)
  }

  /**
   * PSI-06 counts a case exactly when its DRG is surgical or medical, no non-traumatic
   * pneumothorax is principal or present on admission, no diagnosis is chest trauma or
   * pleural effusion, no procedure is thoracic or trans-pleural cardiac surgery, and a
   * secondary iatrogenic pneumothorax is not present on admission.
   */
  lemma Psi06Counts(cs: Registry, row: Row)
    ensures var dxs, ps := AllDiagnoses(row), AllProcedures(row);
            Psi06(cs, row).status == Inclusion <==>
              && SurgicalOrMedicalDrg(cs, row)
              && dxs != []
              && (forall k :: 0 <= k < |dxs| && dxs[k].code in Lookup(cs, "IATPTXD") ==>
                    !PrincipalOrOnAdmission(dxs[k], dxs[0]))
              && !AnyDxIn(dxs, Lookup(cs, "CTRAUMD") + Lookup(cs, "PLEURAD"))
              && !AnyProcIn(ps, Lookup(cs, "THORAIP") + Lookup(cs, "CARDSIP"))
              && AnySecondaryNotPoaIn(dxs, Lookup(cs, "IATROID"))
  {
    var dxs, ps := AllDiagnoses(row), AllProcedures(row);
    if dxs != [] {
      var rule := Psi06DxRule(cs, dxs[0]);
      FirstSomeNone(dxs, rule, 0);
      FirstSomeNone(ps, Psi06ProcRule(cs), 0);
      if FirstSome(dxs, rule, 0).Some? {
        FirstSomeWitness(dxs, rule, 0);
      }
      if FirstSome(ps, Psi06ProcRule(cs), 0).Some? {
        FirstSomeWitness(ps, Psi06ProcRule(cs), 0);
      }
    }
  }

  /**
   * "Principal" is value equality: a secondary pneumothorax entry with the principal's
   * code and flag is treated as principal, so it excludes the case even when its own
   * flag says not present on admission.
   */
  lemma Psi06CopyOfPrincipalExcludes(cs: Registry, row: Row, k: nat)
    requires 1 <= k < |AllDiagnoses(row)|
    requires AllDiagnoses(row)[k] == AllDiagnoses(row)[0]
    requires AllDiagnoses(row)[k].code in Lookup(cs, "IATPTXD")
    ensures Psi06(cs, row).status == Exclusion
  {
    Psi06Counts(cs, row);
  }

  // ---------------------------------------------------------------- PSI-07

  const Psi07Cancer := "Denominator Exclusion: Cancer diagnosis present ("
  const Psi07Immune := "Denominator Exclusion: Immunocompromised diagnosis present ("
  const Psi07ImmuneProc := "Denominator Exclusion: Immunocompromising procedure present ("
  const Psi07PrincipalBsi := "Denominator Exclusion: Principal diagnosis is CVC-related BSI ("
  const Psi07BsiOnAdmission := "Denominator Exclusion: CVC-related BSI diagnosis ("
  const Psi07Bsi := "Inclusion: Central venous catheter-related bloodstream infection (secondary, not POA)"
  const Psi07NoBsi := "Exclusion: No qualifying CVC-related bloodstream infection found"

  function Psi07DxRule(cs: Registry): DxEntry -> Option<Verdict>
  {
    (d: DxEntry) =>
      if d.code in Lookup(cs, "CANCEID") then Some(Exclude(Psi07Cancer + d.code + ")"))
      else if d.code in Lookup(cs, "IMMUNID") then Some(Exclude(Psi07Immune + d.code + ")"))
      else None
  }

  function Psi07ProcRule(cs: Registry): ProcEntry -> Option<Verdict>
  {
    (p: ProcEntry) =>
      if p.code in Lookup(cs, "IMMUNIP") then Some(Exclude(Psi07ImmuneProc + p.code + ")"))
      else None
  }

  /**
   * PSI-07. The present-on-admission exclusion names the code left over from the
   * earlier full scan of the diagnoses, which is the last diagnosis's code.
   */
  function Psi07(cs: Registry, row: Row): Verdict
  {
    var dxs := AllDiagnoses(row);
    var ps := AllProcedures(row);
    var dxHit := FirstSome(dxs, Psi07DxRule(cs), 0);
    var procHit := FirstSome(ps, Psi07ProcRule(cs), 0);
    if !SurgicalOrMedicalDrg(cs, row) then Exclude(NotSurgicalOrMedicalDrg)
    else if !StayAtLeast(row, 2) then Exclude(ShortStayUnder2)
    else if dxs == [] then NoDiagnoses
    else if dxHit.Some? then dxHit.value
    else if procHit.Some? then procHit.value
    else if PrincipalIn(dxs, Lookup(cs, "IDTMC3D")) then Exclude(Psi07PrincipalBsi + dxs[0].code + ")")
    else if AnyDxPoaYIn(dxs, Lookup(cs, "IDTMC3D")) then
      Exclude(Psi07BsiOnAdmission + dxs[|dxs| - 1].code + OnAdmissionSuffix)
    else if AnySecondaryNotPoaIn(dxs, Lookup(cs, "IDTMC3D")) then Include(Psi07Bsi)
    else Exclude(Psi07NoBsi)
  }

  /**
   * PSI-07 counts a case exactly when its DRG is surgical or medical, the stay is at
   * least two days, no diagnosis is cancer or immunocompromise, no procedure is
   * immunocompromising, the principal diagnosis is not a line infection, no line
   * infection is present on admission, and a secondary one is not present on admission.
   */
  lemma Psi07Counts(cs: Registry, row: Row)
    ensures var dxs, ps := AllDiagnoses(row), AllProcedures(row);
            Psi07(cs, row).status == Inclusion <==>
              && SurgicalOrMedicalDrg(cs, row)
              && StayAtLeast(row, 2)
              && dxs != []
              && !AnyDxIn(dxs, Lookup(cs, "CANCEID") + Lookup(cs, "IMMUNID"))
              && !AnyProcIn(ps, Lookup(cs, "IMMUNIP"))
              && !PrincipalIn(dxs, Lookup(cs, "IDTMC3D"))
              && !AnyDxPoaYIn(dxs, Lookup(cs, "IDTMC3D"))
              && AnySecondaryNotPoaIn(dxs, Lookup(cs, "IDTMC3D"))
  {
    var dxs, ps := AllDiagnoses(row), AllProcedures(row);
    FirstSomeNone(dxs, Psi07DxRule(cs), 0);
    FirstSomeNone(ps, Psi07ProcRule(cs), 0);
    if FirstSome(dxs, Psi07DxRule(cs), 0).Some? {
      FirstSomeWitness(dxs, Psi07DxRule(cs), 0);
    }
    if FirstSome(ps, Psi07ProcRule(cs), 0).Some? {
      FirstSomeWitness(ps, Psi07ProcRule(cs), 0);
    }
  }

  // ---------------------------------------------------------------- PSI-08

  const Psi08PrincipalFracture := "Denominator Exclusion: Principal diagnosis is fracture ("
  const Psi08FractureOnAdmission := "Denominator Exclusion: Secondary fracture diagnosis ("
  const Psi08Prosthesis := "Denominator Exclusion: Joint prosthesis-associated fracture present ("
  const Psi08NoFracture := "Exclusion: No qualifying in-hospital fall-associated fracture found"
  const Psi08Hip := "Inclusion: In-hospital fall-associated Hip Fracture"
  const Psi08Other := "Inclusion: In-hospital fall-associated Other Fracture"

  function Psi08DxRule(cs: Registry, principal: DxEntry): DxEntry -> Option<Verdict>
  {
    (d: DxEntry) =>
      if d != principal && d.code in Lookup(cs, "FXID") && IsPoaY(d.poa) then
        Some(Exclude(Psi08FractureOnAdmission + d.code + OnAdmissionSuffix))
      else if d.code in Lookup(cs, "PROSFXID") then Some(Exclude(Psi08Prosthesis + d.code + ")"))
      else None
  }

  /** The codes, in order, of the entries of `ds` that are fractures and not present on admission. */
  function FractureCodes(fx: set<string>, ds: seq<DxEntry>): seq<string>
    decreases |ds|
  {
    if ds == [] then []
    else
      var d := ds[|ds| - 1];
      FractureCodes(fx, ds[..|ds| - 1]) + (if d.code in fx && NotPoa(d.poa) then [d.code] else [])
  }

  /** A code is collected exactly when some entry carries it as a fracture not present on admission. */
  lemma {:induction false} FractureCodesMembers(fx: set<string>, ds: seq<DxEntry>)
    ensures forall c :: c in FractureCodes(fx, ds) <==>
              exists k :: 0 <= k < |ds| && ds[k].code == c && c in fx && NotPoa(ds[k].poa)
    decreases |ds|
  {
    if ds != [] {
      var init := ds[..|ds| - 1];
      FractureCodesMembers(fx, init);
      assert forall k :: 0 <= k < |init| ==> init[k] == ds[k];
    }
  }

  /** Some collected fracture is a hip fracture. */
  predicate HasHipFracture(cs: Registry, fractures: seq<string>)
  {
    exists k :: 0 <= k < |fractures| && fractures[k] in Lookup(cs, "HIPFXID")
  }

  /**
   * The fractures collected from the secondary diagnoses are non-empty exactly when a
   * secondary fracture is not present on admission, and hold a hip fracture exactly
   * when such a fracture is also a hip fracture.
   */
  lemma SecondaryFractures(cs: Registry, dxs: seq<DxEntry>)
    requires dxs != []
    ensures var fx := Lookup(cs, "FXID");
            FractureCodes(fx, dxs[1..]) != [] <==> AnySecondaryNotPoaIn(dxs, fx)
    ensures var fx := Lookup(cs, "FXID");
            HasHipFracture(cs, FractureCodes(fx, dxs[1..])) <==> AnySecondaryNotPoaIn(dxs, fx * Lookup(cs, "HIPFXID"))
  {
    var fx := Lookup(cs, "FXID");
    var tail := dxs[1..];
    var fractures := FractureCodes(fx, tail);
    FractureCodesMembers(fx, tail);
    assert forall k :: 0 <= k < |tail| ==> tail[k] == dxs[k + 1];
    if AnySecondaryNotPoaIn(dxs, fx) {
      var k :| 1 <= k < |dxs| && dxs[k].code in fx && NotPoa(dxs[k].poa);
      assert tail[k - 1] == dxs[k];
      assert dxs[k].code in fractures;
    }
    if fractures != [] {
      assert fractures[0] in fractures;
    }
    if HasHipFracture(cs, fractures) {
      var j :| 0 <= j < |fractures| && fractures[j] in Lookup(cs, "HIPFXID");
      assert fractures[j] in fractures;
      var k :| 0 <= k < |tail| && tail[k].code == fractures[j] && fractures[j] in fx && NotPoa(tail[k].poa);
      assert dxs[k + 1] == tail[k];
    }
    if AnySecondaryNotPoaIn(dxs, fx * Lookup(cs, "HIPFXID")) {
      var k :| 1 <= k < |dxs| && dxs[k].code in fx * Lookup(cs, "HIPFXID") && NotPoa(dxs[k].poa);
      assert tail[k - 1] == dxs[k];
      assert dxs[k].code in fractures;
      var j :| 0 <= j < |fractures| && fractures[j] == dxs[k].code;
    }
  }

  function Psi08(cs: Registry, row: Row): Verdict
  {
    var dxs := AllDiagnoses(row);
    if dxs == [] then NoDiagnoses
    else if !SurgicalOrMedicalDrg(cs, row) then Exclude(NotSurgicalOrMedicalDrg)
    else if PrincipalIn(dxs, Lookup(cs, "FXID")) then Exclude(Psi08PrincipalFracture + dxs[0].code + ")")
    else
      var dxHit := FirstSome(dxs, Psi08DxRule(cs, dxs[0]), 0);
      var fractures := FractureCodes(Lookup(cs, "FXID"), dxs[1..]);
      if dxHit.Some? then dxHit.value
      else if fractures == [] then Exclude(Psi08NoFracture)
      else if HasHipFracture(cs, fractures) then Include(Psi08Hip)
      else Include(Psi08Other)
  }

  /** The denominator of PSI-08: every gate before the numerator passes. */
  predicate Psi08Denominator(cs: Registry, row: Row)
  {
    var dxs := AllDiagnoses(row);
    && dxs != []
    && SurgicalOrMedicalDrg(cs, row)
    && !PrincipalIn(dxs, Lookup(cs, "FXID"))
    && (forall k :: 0 <= k < |dxs| && dxs[k] != dxs[0] && dxs[k].code in Lookup(cs, "FXID") ==> !IsPoaY(dxs[k].poa))
    && !AnyDxIn(dxs, Lookup(cs, "PROSFXID"))
  }

  /**
   * PSI-08 counts a case exactly when it is in the denominator and a secondary fracture
   * is not present on admission; it reports a hip fracture exactly when one of those
   * fractures is also a hip fracture.
   */
  lemma Psi08Counts(cs: Registry, row: Row)
    ensures var dxs := AllDiagnoses(row);
            Psi08(cs, row).status == Inclusion <==>
              Psi08Denominator(cs, row) && AnySecondaryNotPoaIn(dxs, Lookup(cs, "FXID"))
    ensures var dxs := AllDiagnoses(row);
            Psi08(cs, row) == Include(Psi08Hip) <==>
              Psi08Denominator(cs, row) &&
              AnySecondaryNotPoaIn(dxs, Lookup(cs, "FXID") * Lookup(cs, "HIPFXID"))
  {
    var dxs := AllDiagnoses(row);
    if dxs != [] {
      var fx := Lookup(cs, "FXID");
      var rule := Psi08DxRule(cs, dxs[0]);
      FirstSomeNone(dxs, rule, 0);
      if FirstSome(dxs, rule, 0).Some? {
        FirstSomeWitness(dxs, rule, 0);
      }
      SecondaryFractures(cs, dxs);
    }
  }
}
