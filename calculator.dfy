/**
 * The calculator object: the registry and the definitions catalog it was given,
 * the two code unions it builds once when it is created, and the methods that
 * walk an encounter row step by step. Each method is proved to compute what the
 * corresponding specification function states.
 */
module Calculator {
  import opened Wrappers
  import opened Scans
  import opened CodeSets
  import opened Encounter
  import opened Dates
  import opened Definitions
  import opened Verdicts
  import opened BaseExclusions
  import opened Assigners
  import opened Criteria
  import opened MortalityIndicators
  import opened HospitalAcquiredIndicators
  import opened PostoperativeIndicators
  import opened AbdominopelvicIndicators
  import opened PerinatalIndicators
  import Dispatch

  /** Scan `s` from `from` on and return the first value the check produces. */
  method ScanFirst<T, R>(s: seq<T>, check: T -> Option<R>, from: nat) returns (r: Option<R>)
    ensures r == FirstSome(s, check, from)
  {
    var i := from;
    while i < |s|
      invariant from <= i
      invariant FirstSome(s, check, i) == FirstSome(s, check, from)
      decreases |s| - i
    {
      if check(s[i]).Some? {
        return check(s[i]);
      }
      i := i + 1;
    }
    return None;
  }

  class PsiCalculator {
    const codeSets: Registry
    const catalog: Catalog
    /** The codes of every `PI…EXD`, `DTI…EXD` and `PI…D` set: a principal diagnosis among them excludes PSI-03. */
    const piExdCodes: set<string>
    /** The injury-diagnosis codes of all PSI-15 organ systems together. */
    const injuryCodes: set<string>

    ghost predicate Valid()
    {
      piExdCodes == PiExdCodes(codeSets) && injuryCodes == Psi15InjuryCodes(codeSets)
    }

    constructor (cs: Registry, cat: Catalog)
      ensures codeSets == cs && catalog == cat
      ensures Valid()
    {
      var remaining := cs.Keys;
      var piExd: set<string> := {};
      while remaining != {}
        invariant remaining <= cs.Keys
        invariant piExd == set h, c | h in cs && h !in remaining && PiExdHeader(h) && c in cs[h] :: c
        decreases remaining
      {
        var header :| header in remaining;
        if PiExdHeader(header) && cs[header] != {} {
          piExd := piExd + cs[header];
        }
        remaining := remaining - {header};
      }
      var injury: set<string> := {};
      var i := 0;
      while i < |OrganSystems|
        invariant 0 <= i <= |OrganSystems|
        invariant injury == set k, c | 0 <= k < i && c in Lookup(cs, OrganSystems[k].dxCodes) :: c
      {
        injury := injury + Lookup(cs, OrganSystems[i].dxCodes);
        i := i + 1;
      }
      codeSets := cs;
      catalog := cat;
      piExdCodes := piExd;
      injuryCodes := injury;
    }

    // ------------------------------------------------------------ extraction

    /** The principal diagnosis with `POA1`, then `DX1`..`DX25` with `POA2`..`POA26`, skipping missing codes. */
    method GetAllDiagnoses(row: Row) returns (dxs: seq<DxEntry>)
      ensures dxs == AllDiagnoses(row)
    {
      dxs := [];
      if row.pdx.Some? {
        dxs := dxs + [DxEntry(row.pdx.value, PoaAt(row, 1))];
      }
      var i := 1;
      while i < DiagnosisSlots
        invariant 1 <= i <= DiagnosisSlots
        invariant dxs == DiagnosesUpTo(row, i)
      {
        var code := DxAt(row, i);
        if code.Some? {
          dxs := dxs + [DxEntry(code.value, PoaAt(row, i + 1))];
        }
        i := i + 1;
      }
    }

    /** `Proc1`..`Proc10` with their resolved dates, skipping missing codes. */
    method GetAllProcedures(row: Row) returns (ps: seq<ProcEntry>)
      ensures ps == AllProcedures(row)
    {
      ps := [];
      var i := 0;
      while i < ProcedureSlots
        invariant 0 <= i <= ProcedureSlots
        invariant ps == ProceduresUpTo(row, i)
      {
        var slot := ProcAt(row, i);
        if slot.code.Some? {
          ps := ps + [ProcEntry(slot.code.value, slot.date.Resolve())];
        }
        i := i + 1;
      }
    }

    // ------------------------------------------------------------ dates

    /** The earliest resolved date of a procedure from the named set. */
    method FirstProcedureDateByCodeSet(ps: seq<ProcEntry>, name: string) returns (minDate: Option<int>)
      ensures minDate == FirstProcedureDate(codeSets, ps, name)
    {
      var target := Lookup(codeSets, name);
      if target == {} {
        return None;
      }
      minDate := None;
      var i := 0;
      while i < |ps|
        invariant 0 <= i <= |ps|
        invariant minDate == EarliestMatch(ps[..i], target)
      {
        var p := ps[i];
        if p.code in target && p.date.Some? {
          if minDate.None? || p.date.value < minDate.value {
            minDate := p.date;
          }
        }
        assert ps[..i + 1][..i] == ps[..i];
        i := i + 1;
      }
      assert ps[..|ps|] == ps;
    }

    /** The latest resolved date of a procedure from the named set. */
    method LatestProcedureDateByCodeSet(ps: seq<ProcEntry>, name: string) returns (maxDate: Option<int>)
      ensures maxDate == LatestProcedureDate(codeSets, ps, name)
    {
      var target := Lookup(codeSets, name);
      if target == {} {
        return None;
      }
      maxDate := None;
      var i := 0;
      while i < |ps|
        invariant 0 <= i <= |ps|
        invariant maxDate == LatestMatch(ps[..i], target)
      {
        var p := ps[i];
        if p.code in target && p.date.Some? {
          if maxDate.None? || p.date.value > maxDate.value {
            maxDate := p.date;
          }
        }
        assert ps[..i + 1][..i] == ps[..i];
        i := i + 1;
      }
      assert ps[..|ps|] == ps;
    }

    /** Whether a dated procedure from the named set lies in the window of days after the reference date. */
    method CheckProcedureTiming(ps: seq<ProcEntry>, ref: Option<int>, name: string, w: Window) returns (found: bool)
      ensures found == ProcedureInWindow(codeSets, ps, ref, name, w)
    {
      if ref.None? {
        return false;
      }
      var target := Lookup(codeSets, name);
      if target == {} {
        return false;
      }
      var i := 0;
      while i < |ps|
        invariant 0 <= i <= |ps|
        invariant forall k :: 0 <= k < i ==>
                    !(DatedIn(ps[k], target) && WithinWindow((ps[k].date.value - ref.value) / MinutesPerDay, w))
      {
        var p := ps[i];
        if p.code in target && p.date.Some? {
          var daysDiff := DaysBetween(ref, p.date);
          if daysDiff.Some? {
            var withinWindow := true;
            if w.minDays.Some? {
              if w.inclusiveMin && daysDiff.value < w.minDays.value {
                withinWindow := false;
              } else if !w.inclusiveMin && daysDiff.value <= w.minDays.value {
                withinWindow := false;
              }
            }
            if w.maxDays.Some? {
              if w.inclusiveMax && daysDiff.value > w.maxDays.value {
                withinWindow := false;
              } else if !w.inclusiveMax && daysDiff.value >= w.maxDays.value {
                withinWindow := false;
              }
            }
            if withinWindow {
              return true;
            }
          }
        }
        i := i + 1;
      }
      return false;
    }

    // ------------------------------------------------------------ base exclusions

    /** Append each of `names` that is not yet listed, in order. */
    method AddMissingNames(start: seq<string>, names: seq<string>) returns (fields: seq<string>)
      ensures fields == AddFields(start, names)
    {
      fields := start;
      var f := 0;
      while f < |names|
        invariant 0 <= f <= |names|
        invariant fields == AddFields(start, names[..f])
      {
        assert names[..f + 1][..f] == names[..f];
        if names[f] !in fields {
          fields := fields + [names[f]];
        }
        f := f + 1;
      }
      assert names[..|names|] == names;
    }

    /** Add the fields of every rule of a `data_quality` group that lists missing required fields. */
    method AddRuleFields(start: seq<string>, rules: seq<FieldRule>) returns (fields: seq<string>)
      ensures fields == AddFields(start, RuleFieldNames(rules))
    {
      fields := start;
      var r := 0;
      while r < |rules|
        invariant 0 <= r <= |rules|
        invariant fields == AddFields(start, RuleFieldNames(rules[..r]))
      {
        var rule := rules[r];
        assert rules[..r + 1][..r] == rules[..r];
        assert rules[..r + 1][r] == rule;
        if ListsRequiredFields(rule) {
          fields := AddMissingNames(fields, rule.fields.value);
          assert RuleFieldNames(rules[..r + 1]) == RuleFieldNames(rules[..r]) + rule.fields.value;
          AddFieldsAppend(start, RuleFieldNames(rules[..r]), rule.fields.value);
        } else {
          assert RuleFieldNames(rules[..r + 1]) == RuleFieldNames(rules[..r]);
        }
        r := r + 1;
      }
      assert rules[..|rules|] == rules;
    }

    /** The required fields, grown in place: the core seven, the data-quality lists, then dates and stay. */
    method RequiredFieldsFor(d: IndicatorDef) returns (fields: seq<string>)
      ensures fields == RequiredFields(d)
    {
      fields := CoreRequiredFields;
      var groups := d.exclusionCriteria;
      var g := 0;
      while g < |groups|
        invariant 0 <= g <= |groups|
        invariant fields == AddFields(CoreRequiredFields, DataQualityFieldNames(groups[..g]))
      {
        var group := groups[g];
        assert groups[..g + 1][..g] == groups[..g];
        assert groups[..g + 1][g] == group;
        if group.category == "data_quality" {
          fields := AddRuleFields(fields, group.rules);
          assert DataQualityFieldNames(groups[..g + 1]) == DataQualityFieldNames(groups[..g]) + RuleFieldNames(group.rules);
          AddFieldsAppend(CoreRequiredFields, DataQualityFieldNames(groups[..g]), RuleFieldNames(group.rules));
        } else {
          assert DataQualityFieldNames(groups[..g + 1]) == DataQualityFieldNames(groups[..g]);
        }
        g := g + 1;
      }
      assert groups[..|groups|] == groups;
      if d.requiresProcedureTiming || d.requiresTimeWindows {
        if "Admission_Date" !in fields {
          fields := fields + ["Admission_Date"];
        }
        if "Discharge_Date" !in fields {
          fields := fields + ["Discharge_Date"];
        }
      }
      if d.requiresMinimumLos {
        if "Length_of_stay" !in fields {
          fields := fields + ["Length_of_stay"];
        }
      }
    }

    /** The base exclusions in order: first missing field, age, population floor, newborn, obstetric, DRG 999. */
    method CheckBaseExclusions(row: Row, psi: string) returns (r: Option<Verdict>)
      ensures r == BaseExclusion(codeSets, catalog, row, psi)
    {
      var d := DefOf(catalog, psi);
      var fields := RequiredFieldsFor(d);
      var i := 0;
      while i < |fields|
        invariant 0 <= i <= |fields|
        invariant FirstSome(fields, MissingCheck(row), i) == FirstMissing(row, fields)
      {
        if !HasField(row, fields[i]) {
          assert MissingCheck(row)(fields[i]) == Some(fields[i]);
          return Some(Exclude(MissingField(fields[i]).Reason()));
        }
        assert MissingCheck(row)(fields[i]).None?;
        i := i + 1;
      }
      assert FirstMissing(row, fields).None?;
      if row.age.None? {
        return Some(Exclude(InvalidAge.Reason()));
      }
      var age := row.age.value;
      if AgeFloorExcludes(codeSets, d, row, age) {
        return Some(Exclude(UnderAge.Reason()));
      }
      if NewbornExcludes(codeSets, d, row) {
        return Some(Exclude(NewbornDischarge.Reason()));
      }
      if ObstetricExcludes(codeSets, d, row) {
        return Some(Exclude(ObstetricDischarge.Reason()));
      }
      if DrgText(row) == "999" {
        return Some(Exclude(UngroupableDrg.Reason()));
      }
      return None;
    }

    // ------------------------------------------------------------ PSI-04 strata

    /** Whether the case qualifies for one PSI-04 stratum: its inclusion, then each exclusion text in turn. */
    method CheckPsi04StratumCriteria(s: Stratum, row: Row, dxs: seq<DxEntry>, ps: seq<ProcEntry>, firstOr: Option<int>)
      returns (qualifies: bool)
      ensures qualifies == QualifiesForStratum(codeSets, catalog, s, dxs, ps, firstOr, row.mdc)
    {
      var meetsInclusion := false;
      if s == Shock {
        var secondary := AnySecondaryNotPoaIn(dxs, Lookup(codeSets, "FTR5DX"));
        var afterOr := CheckProcedureTiming(ps, firstOr, "FTR5PR", AtLeast(0, true));
        meetsInclusion := secondary || afterOr;
      } else {
        meetsInclusion := AnySecondaryNotPoaIn(dxs, Lookup(codeSets, StratumDxSet(s)));
      }
      if !meetsInclusion {
        return false;
      }
      var texts := StratumTexts(catalog, s.Name());
      var principal := PrincipalCode(dxs);
      var i := 0;
      while i < |texts|
        invariant 0 <= i <= |texts|
        invariant forall k :: 0 <= k < i ==> !TextExcludes(codeSets, texts[k], principal, dxs, ps, row.mdc)
      {
        if TextExcludes(codeSets, texts[i], principal, dxs, ps, row.mdc) {
          return false;
        }
        i := i + 1;
      }
      return true;
    }

    // ------------------------------------------------------------ evaluators

    method EvaluatePsi02(row: Row) returns (v: Verdict)
      ensures v == Psi02(codeSets, row)
    {
      var dxs := GetAllDiagnoses(row);
      var ps := GetAllProcedures(row);
      if DrgText(row) !in Lookup(codeSets, "LOWMODR") {
        return Exclude(Psi02NotLowMortality);
      }
      var dxHit := ScanFirst(dxs, Psi02DxRule(codeSets), 0);
      if dxHit.Some? {
        return dxHit.value;
      }
      var procHit := ScanFirst(ps, Psi02ProcRule(codeSets), 0);
      if procHit.Some? {
        return procHit.value;
      }
      if row.pointOfOrigin == Some("F") {
        return Exclude(Psi02Hospice);
      }
      if row.disposition == Some(2) {
        return Exclude(Psi02Transfer);
      }
      if row.disposition == Some(20) {
        return Include(Psi02Death);
      }
      return Exclude(Psi02NotDeath);
    }

    /** The PSI-03 numerator scan: a pressure ulcer not present on admission, with no same-site deep tissue injury on admission. */
    method HasQualifyingPressureUlcer(dxs: seq<DxEntry>) returns (found: bool)
      ensures found == HasQualifyingUlcer(codeSets, dxs)
    {
      found := false;
      var i := 0;
      while i < |dxs|
        invariant 0 <= i <= |dxs|
        invariant forall k :: 0 <= k < i ==> !UlcerQualifies(codeSets, dxs, dxs[k])
      {
        var d := dxs[i];
        if NotPoa(d.poa) {
          if d.code in UnspecifiedPuCodes {
            found := true;
            break;
          }
          if d.code in AllSpecificPuCodes {
            var siteSet := AnatomicSiteMap[d.code];
            if siteSet != "" {
              var dtiOnAdmission := false;
              var dtiCodes := Lookup(codeSets, siteSet);
              if dtiCodes != {} {
                var j := 0;
                while j < |dxs|
                  invariant 0 <= j <= |dxs|
                  invariant !dtiOnAdmission
                  invariant forall k :: 0 <= k < j ==> !(dxs[k].code in dtiCodes && IsPoaY(dxs[k].poa))
                {
                  if dxs[j].code in dtiCodes && dxs[j].poa == Some("Y") {
                    dtiOnAdmission := true;
                    break;
                  }
                  j := j + 1;
                }
              }
              assert dtiOnAdmission == DtiPresentOnAdmission(codeSets, dxs, siteSet);
              if !dtiOnAdmission {
                found := true;
                break;
              }
            }
          }
        }
        i := i + 1;
      }
    }

    method EvaluatePsi03(row: Row) returns (v: Verdict)
      ensures v == Psi03(codeSets, piExdCodes, row)
    {
      if !SurgicalOrMedicalDrg(codeSets, row) {
        return Exclude(NotSurgicalOrMedicalDrg);
      }
      if !StayAtLeast(row, 3) {
        return Exclude(Psi03ShortStay);
      }
      var dxs := GetAllDiagnoses(row);
      if dxs == [] {
        return NoDiagnoses;
      }
      if dxs[0].code in piExdCodes {
        return Exclude(Psi03PrincipalUlcer + dxs[0].code + ")");
      }
      var skinHit := ScanFirst(dxs, Psi03SkinRule(codeSets), 0);
      if skinHit.Some? {
        return skinHit.value;
      }
      var hasUlcer := HasQualifyingPressureUlcer(dxs);
      if hasUlcer {
        return Include(Psi03Ulcer);
      }
      return Exclude(Psi03NoUlcer);
    }

    method EvaluatePsi04(row: Row) returns (v: Verdict)
      ensures v == Psi04(codeSets, catalog, row)
    {
      var dxs := GetAllDiagnoses(row);
      var ps := GetAllProcedures(row);
      if dxs == [] {
        return NoDiagnoses;
      }
      if !SurgicalDrg(codeSets, row) {
        return Exclude(NotSurgicalDrg);
      }
      if !Psi04Obstetric(codeSets, row, dxs) && (row.age.None? || !(18 <= row.age.value <= 89)) {
        return Exclude(Psi04AgeOutOfRange);
      }
      var firstOr := FirstProcedureDateByCodeSet(ps, "ORPROC");
      if firstOr.None? {
        return Exclude(NoOrProcedure);
      }
      if !(ElectiveAdmission(row) || OrWithinTwoDays(row, firstOr)) {
        return Exclude(Psi04NotTimely);
      }
      if row.disposition == Some(2) {
        return Exclude(Psi04Transfer);
      }
      if row.pointOfOrigin == Some("F") {
        return Exclude(Psi04Hospice);
      }
      if row.mdc == Some(15) && PrincipalIn(dxs, Lookup(codeSets, "MDC15PRINDX")) {
        return Exclude(Psi04Newborn);
      }
      ghost var check := StratumCheck(codeSets, catalog, dxs, ps, firstOr, row.mdc);
      var stratum: Option<Stratum> := None;
      var k := 0;
      while k < |StrataPriority|
        invariant 0 <= k <= |StrataPriority|
        invariant stratum.None?
        invariant FirstSome(StrataPriority, check, k) == AssignedStratum(codeSets, catalog, dxs, ps, firstOr, row.mdc)
      {
        var qualifies := CheckPsi04StratumCriteria(StrataPriority[k], row, dxs, ps, firstOr);
        if qualifies {
          stratum := Some(StrataPriority[k]);
          break;
        }
        k := k + 1;
      }
      assert stratum == AssignedStratum(codeSets, catalog, dxs, ps, firstOr, row.mdc);
      if stratum.None? {
        return Exclude(Psi04NoComplication);
      }
      if row.disposition == Some(20) {
        return Include(Psi04DeathPrefix + stratum.value.Label());
      }
      return Exclude(Psi04NotDeathPrefix + stratum.value.Label() + Psi04NotDeathSuffix);
    }

    method EvaluatePsi05(row: Row) returns (v: Verdict)
      ensures v == Psi05(codeSets, row)
    {
      if !SurgicalOrMedicalDrg(codeSets, row) {
        return Exclude(NotSurgicalOrMedicalDrg);
      }
      var dxs := GetAllDiagnoses(row);
      if dxs == [] {
        return NoDiagnoses;
      }
      if PrincipalIn(dxs, Lookup(codeSets, "FOREIID")) {
        return Exclude(Psi05PrincipalItem + dxs[0].code + ")");
      }
      var poaHit := ScanFirst(dxs, Psi05PoaRule(codeSets), 0);
      if poaHit.Some? {
        return poaHit.value;
      }
      if AnySecondaryNotPoaIn(dxs, Lookup(codeSets, "FOREIID")) {
        return Include(Psi05Item);
      }
      return Exclude(Psi05NoItem);
    }

    method EvaluatePsi06(row: Row) returns (v: Verdict)
      ensures v == Psi06(codeSets, row)
    {
      if !SurgicalOrMedicalDrg(codeSets, row) {
        return Exclude(NotSurgicalOrMedicalDrg);
      }
      var dxs := GetAllDiagnoses(row);
      var ps := GetAllProcedures(row);
      if dxs == [] {
        return NoDiagnoses;
      }
      var dxHit := ScanFirst(dxs, Psi06DxRule(codeSets, dxs[0]), 0);
      if dxHit.Some? {
        return dxHit.value;
      }
      var procHit := ScanFirst(ps, Psi06ProcRule(codeSets), 0);
      if procHit.Some? {
        return procHit.value;
      }
      if AnySecondaryNotPoaIn(dxs, Lookup(codeSets, "IATROID")) {
        return Include(Psi06Iatrogenic);
      }
      return Exclude(Psi06NoIatrogenic);
    }

    method EvaluatePsi07(row: Row) returns (v: Verdict)
      ensures v == Psi07(codeSets, row)
    {
      if !SurgicalOrMedicalDrg(codeSets, row) {
        return Exclude(NotSurgicalOrMedicalDrg);
      }
      if !StayAtLeast(row, 2) {
        return Exclude(ShortStayUnder2);
      }
      var dxs := GetAllDiagnoses(row);
      var ps := GetAllProcedures(row);
      if dxs == [] {
        return NoDiagnoses;
      }
      var dxHit := ScanFirst(dxs, Psi07DxRule(codeSets), 0);
      if dxHit.Some? {
        return dxHit.value;
      }
      var procHit := ScanFirst(ps, Psi07ProcRule(codeSets), 0);
      if procHit.Some? {
        return procHit.value;
      }
      if PrincipalIn(dxs, Lookup(codeSets, "IDTMC3D")) {
        return Exclude(Psi07PrincipalBsi + dxs[0].code + ")");
      }
      if AnyDxPoaYIn(dxs, Lookup(codeSets, "IDTMC3D")) {
        return Exclude(Psi07BsiOnAdmission + dxs[|dxs| - 1].code + OnAdmissionSuffix);
      }
      if AnySecondaryNotPoaIn(dxs, Lookup(codeSets, "IDTMC3D")) {
        return Include(Psi07Bsi);
      }
      return Exclude(Psi07NoBsi);
    }

    /** The secondary fractures not present on admission, collected in order. */
    method SecondaryFracturesNotOnAdmission(dxs: seq<DxEntry>) returns (fractures: seq<string>)
      requires dxs != []
      ensures fractures == FractureCodes(Lookup(codeSets, "FXID"), dxs[1..])
    {
      var fx := Lookup(codeSets, "FXID");
      var secondary := dxs[1..];
      fractures := [];
      var i := 0;
      while i < |secondary|
        invariant 0 <= i <= |secondary|
        invariant fractures == FractureCodes(fx, secondary[..i])
      {
        var d := secondary[i];
        assert secondary[..i + 1][..i] == secondary[..i];
        if d.code in fx && NotPoa(d.poa) {
          fractures := fractures + [d.code];
        }
        i := i + 1;
      }
      assert secondary[..|secondary|] == secondary;
    }

    method EvaluatePsi08(row: Row) returns (v: Verdict)
      ensures v == Psi08(codeSets, row)
    {
      var dxs := GetAllDiagnoses(row);
      if dxs == [] {
        return NoDiagnoses;
      }
      if !SurgicalOrMedicalDrg(codeSets, row) {
        return Exclude(NotSurgicalOrMedicalDrg);
      }
      if PrincipalIn(dxs, Lookup(codeSets, "FXID")) {
        return Exclude(Psi08PrincipalFracture + dxs[0].code + ")");
      }
      var dxHit := ScanFirst(dxs, Psi08DxRule(codeSets, dxs[0]), 0);
      if dxHit.Some? {
        return dxHit.value;
      }
      var fractures := SecondaryFracturesNotOnAdmission(dxs);
      if fractures == [] {
        return Exclude(Psi08NoFracture);
      }
      var hasHipFracture := false;
      var i := 0;
      while i < |fractures|
        invariant 0 <= i <= |fractures|
        invariant !hasHipFracture
        invariant forall k :: 0 <= k < i ==> fractures[k] !in Lookup(codeSets, "HIPFXID")
      {
        if fractures[i] in Lookup(codeSets, "HIPFXID") {
          hasHipFracture := true;
          break;
        }
        i := i + 1;
      }
      if hasHipFracture {
        return Include(Psi08Hip);
      }
      return Include(Psi08Other);
    }

    method EvaluatePsi09(row: Row) returns (v: Verdict)
      ensures v == Psi09(codeSets, row)
    {
      if !SurgicalDrg(codeSets, row) {
        return Exclude(NotSurgicalDrg);
      }
      var dxs := GetAllDiagnoses(row);
      var ps := GetAllProcedures(row);
      if dxs == [] {
        return NoDiagnoses;
      }
      var firstOr := FirstProcedureDateByCodeSet(ps, "ORPROC");
      if firstOr.None? {
        return Exclude(Psi09NoOrTiming);
      }
      var dxHit := ScanFirst(dxs, Psi09DxRule(codeSets, dxs[0]), 0);
      if dxHit.Some? {
        return dxHit.value;
      }
      var firstTreatment := FirstProcedureDateByCodeSet(ps, "HEMOTH2P");
      if firstTreatment.Some? {
        var thrombolytic := CheckProcedureTiming(ps, firstTreatment, "THROMBOLYTICP", OnOrBefore);
        if thrombolytic {
          return Exclude(Psi09Thrombolytic);
        }
      }
      if AnySecondaryNotPoaIn(dxs, Lookup(codeSets, "POHMRI2D")) {
        var treated := CheckProcedureTiming(ps, firstOr, "HEMOTH2P", StrictlyAfter);
        if treated {
          return Include(Psi09Hemorrhage);
        }
      }
      return Exclude(Psi09NoHemorrhage);
    }

    method EvaluatePsi10(row: Row) returns (v: Verdict)
      ensures v == Psi10(codeSets, row)
    {
      var dxs := GetAllDiagnoses(row);
      var ps := GetAllProcedures(row);
      if dxs == [] {
        return NoDiagnoses;
      }
      if !SurgicalDrg(codeSets, row) {
        return Exclude(NotSurgicalDrg);
      }
      if !ElectiveAdmission(row) {
        return Exclude(NotElective);
      }
      var firstOr := FirstProcedureDateByCodeSet(ps, "ORPROC");
      if firstOr.None? {
        return Exclude(NoOrProcedure);
      }
      var dxHit := ScanFirst(dxs, Psi10DxRule(codeSets, dxs[0]), 0);
      if dxHit.Some? {
        return dxHit.value;
      }
      var earlyDialysis := CheckProcedureTiming(ps, firstOr, "DIALYIP", OnOrBefore);
      if earlyDialysis {
        return Exclude(Psi10EarlyDialysis);
      }
      var earlyAccess := CheckProcedureTiming(ps, firstOr, "DIALY2P", OnOrBefore);
      if earlyAccess {
        return Exclude(Psi10EarlyAccess);
      }
      if AnyDxPoaYIn(dxs, Lookup(codeSets, "SOLKIDD")) && AnyProcIn(ps, Lookup(codeSets, "PNEPHREP")) {
        return Exclude(Psi10SolitaryKidney);
      }
      if AnySecondaryNotPoaIn(dxs, Lookup(codeSets, "PHYSIDB")) {
        var dialysisAfter := CheckProcedureTiming(ps, firstOr, "DIALYIP", StrictlyAfter);
        if dialysisAfter {
          return Include(Psi10Aki);
        }
      }
      return Exclude(Psi10NoAki);
    }

    method EvaluatePsi11(row: Row) returns (v: Verdict)
      ensures v == Psi11(codeSets, row)
    {
      var dxs := GetAllDiagnoses(row);
      var ps := GetAllProcedures(row);
      if dxs == [] {
        return NoDiagnoses;
      }
      if !SurgicalDrg(codeSets, row) {
        return Exclude(NotSurgicalDrg);
      }
      if !ElectiveAdmission(row) {
        return Exclude(NotElective);
      }
      var firstOr := FirstProcedureDateByCodeSet(ps, "ORPROC");
      if firstOr.None? {
        return Exclude(NoOrProcedure);
      }
      var dxHit := ScanFirst(dxs, Psi11DxRule(codeSets, dxs[0]), 0);
      if dxHit.Some? {
        return dxHit.value;
      }
      var ors := OrCodes(Lookup(codeSets, "ORPROC"), ps);
      if |ors| == 1 && ors[0] in Lookup(codeSets, "TRACHIP") {
        return Exclude(Psi11OnlyTracheostomy);
      }
      var firstTrach := FirstProcedureDateByCodeSet(ps, "TRACHIP");
      if firstTrach.Some? && firstTrach.value < firstOr.value {
        return Exclude(Psi11EarlyTracheostomy);
      }
      var procHit := ScanFirst(ps, Psi11ProcRule(codeSets), 0);
      if procHit.Some? {
        return procHit.value;
      }
      if row.mdc == Some(4) {
        return Exclude(Psi11Respiratory);
      }
      var failure := AnySecondaryNotPoaIn(dxs, Lookup(codeSets, "ACURF2D"));
      if !failure {
        failure := CheckProcedureTiming(ps, firstOr, "PR9672P", AtLeast(0, true));
      }
      if !failure {
        failure := CheckProcedureTiming(ps, firstOr, "PR9671P", AtLeast(2, true));
      }
      if !failure {
        failure := CheckProcedureTiming(ps, firstOr, "PR9604P", AtLeast(1, true));
      }
      if failure {
        return Include(Psi11Failure);
      }
      return Exclude(Psi11NoFailure);
    }

    method EvaluatePsi12(row: Row) returns (v: Verdict)
      ensures v == Psi12(codeSets, row)
    {
      if !SurgicalDrg(codeSets, row) {
        return Exclude(NotSurgicalDrg);
      }
      var dxs := GetAllDiagnoses(row);
      var ps := GetAllProcedures(row);
      if dxs == [] {
        return NoDiagnoses;
      }
      var firstOr := FirstProcedureDateByCodeSet(ps, "ORPROC");
      if firstOr.None? {
        return Exclude(NoOrProcedure);
      }
      var earlyFilter := CheckProcedureTiming(ps, firstOr, "VENACIP", OnOrBefore);
      if earlyFilter {
        return Exclude(Psi12EarlyFilter);
      }
      var earlyThrombectomy := CheckProcedureTiming(ps, firstOr, "THROMP", OnOrBefore);
      if earlyThrombectomy {
        return Exclude(Psi12EarlyThrombectomy);
      }
      if LateFirstOr(row, firstOr) {
        return Exclude(LateSurgery);
      }
      var dxHit := ScanFirst(dxs, Psi12DxRule(codeSets, dxs[0]), 0);
      if dxHit.Some? {
        return dxHit.value;
      }
      var procHit := ScanFirst(ps, Psi12ProcRule(codeSets), 0);
      if procHit.Some? {
        return procHit.value;
      }
      if AnySecondaryNotPoaIn(dxs, DvtPeCodes(codeSets)) {
        return Include(Psi12DvtPe);
      }
      return Exclude(Psi12NoDvtPe);
    }

    method EvaluatePsi13(row: Row) returns (v: Verdict)
      ensures v == Psi13(codeSets, row)
    {
      if !SurgicalDrg(codeSets, row) {
        return Exclude(NotSurgicalDrg);
      }
      if !ElectiveAdmission(row) {
        return Exclude(NotElective);
      }
      var dxs := GetAllDiagnoses(row);
      var ps := GetAllProcedures(row);
      if dxs == [] {
        return NoDiagnoses;
      }
      var firstOr := FirstProcedureDateByCodeSet(ps, "ORPROC");
      if firstOr.None? {
        return Exclude(NoOrProcedure);
      }
      if LateFirstOr(row, firstOr) {
        return Exclude(LateSurgery);
      }
      var dxHit := ScanFirst(dxs, Psi13DxRule(codeSets, dxs[0]), 0);
      if dxHit.Some? {
        return dxHit.value;
      }
      if AnySecondaryNotPoaIn(dxs, Lookup(codeSets, "SEPTI2D")) {
        return Include(Psi13SepsisPrefix + Psi13RiskCategory(codeSets, dxs, ps));
      }
      return Exclude(Psi13NoSepsis);
    }

    /**
     * The PSI-14 steps before the numerator: the diagnoses and procedures, then each
     * exclusion in turn. When none applies, the latest reclosure date is passed on.
     */
    method ScreenPsi14(row: Row) returns (screen: Option<Verdict>, dxs: seq<DxEntry>, ps: seq<ProcEntry>, lastReclosure: Option<int>)
      ensures dxs == AllDiagnoses(row) && ps == AllProcedures(row)
      ensures screen == Psi14Screen(codeSets, row)
      ensures screen.None? ==> lastReclosure == LatestProcedureDate(codeSets, ps, "RECLOIP")
    {
      lastReclosure := None;
      dxs := GetAllDiagnoses(row);
      ps := GetAllProcedures(row);
      if dxs == [] {
        return Some(NoDiagnoses), dxs, ps, lastReclosure;
      }
      var firstOpen := FirstProcedureDateByCodeSet(ps, "ABDOMIPOPEN");
      var firstOther := FirstProcedureDateByCodeSet(ps, "ABDOMIPOTHER");
      if firstOpen.None? && firstOther.None? {
        return Some(Exclude(Psi14NoSurgery)), dxs, ps, lastReclosure;
      }
      var initial := InitialSurgery(firstOpen, firstOther);
      if initial.None? {
        return Some(Exclude(Psi14MissingDate)), dxs, ps, lastReclosure;
      }
      if !StayAtLeast(row, 2) {
        return Some(Exclude(ShortStayUnder2)), dxs, ps, lastReclosure;
      }
      lastReclosure := LatestProcedureDateByCodeSet(ps, "RECLOIP");
      if lastReclosure.Some? && lastReclosure.value <= initial.value {
        return Some(Exclude(Psi14EarlyReclosure)), dxs, ps, lastReclosure;
      }
      screen := ScanFirst(dxs, Psi14DxRule(codeSets, dxs[0]), 0);
    }

    /** PSI-14 as written: any `RECLOIP` procedure counts toward the numerator, dated or not. */
    method EvaluatePsi14AsWritten(row: Row) returns (v: Verdict)
      ensures v == Psi14AsWritten(codeSets, row)
    {
      var screen, dxs, ps, lastReclosure := ScreenPsi14(row);
      if screen.Some? {
        return screen.value;
      }
      var hasReclosure := AnyProcIn(ps, Lookup(codeSets, "RECLOIP"));
      if hasReclosure && AnySecondaryNotPoaIn(dxs, Lookup(codeSets, "ABWALLCD")) {
        return Include(Psi14CountedPrefix + Psi14Stratum(codeSets, ps));
      }
      return Exclude(Psi14NotCounted);
    }

    /** PSI-14 with the corrected numerator: only a reclosure whose date resolved counts. */
    method EvaluatePsi14(row: Row) returns (v: Verdict)
      ensures v == Psi14(codeSets, row)
    {
      var screen, dxs, ps, lastReclosure := ScreenPsi14(row);
      if screen.Some? {
        return screen.value;
      }
      if lastReclosure.Some? && AnySecondaryNotPoaIn(dxs, Lookup(codeSets, "ABWALLCD")) {
        return Include(Psi14CountedPrefix + Psi14Stratum(codeSets, ps));
      }
      return Exclude(Psi14NotCounted);
    }

    method EvaluatePsi15(row: Row) returns (v: Verdict)
      ensures v == Psi15(codeSets, injuryCodes, row)
    {
      if !SurgicalOrMedicalDrg(codeSets, row) {
        return Exclude(NotSurgicalOrMedicalDrg);
      }
      var dxs := GetAllDiagnoses(row);
      var ps := GetAllProcedures(row);
      if dxs == [] {
        return NoDiagnoses;
      }
      var index := FirstProcedureDateByCodeSet(ps, "ABDOMI15P");
      if index.None? {
        return Exclude(Psi15NoIndex);
      }
      if dxs[0].code != "" && dxs[0].code in injuryCodes {
        return Exclude(Psi15PrincipalInjury + dxs[0].code + ")");
      }
      ghost var rule := Psi15InjuryRule(codeSets, ps, index);
      var hasQualifyingCase := false;
      var k := 1;
      while k < |dxs|
        invariant 1 <= k <= |dxs|
        invariant !hasQualifyingCase
        invariant FirstSome(dxs, rule, k) == FirstSome(dxs, rule, 1)
      {
        var d := dxs[k];
        var organ := OrganSystemOf(codeSets, d.code, true);
        if organ.Some? {
          var repaired := CheckProcedureTiming(ps, index, organ.value.procCodes, RepairWindow);
          if repaired && d.poa == Some("Y") {
            return Exclude(Psi15InjuryOnAdmission + d.code + Psi15WithRepairSuffix);
          }
          if repaired {
            hasQualifyingCase := true;
            break;
          }
        }
        k := k + 1;
      }
      if hasQualifyingCase {
        return Include(Psi15CountedPrefix + Psi15RiskCategory(codeSets, ps, index));
      }
      return Exclude(Psi15NotCounted);
    }

    method EvaluatePsi17(row: Row) returns (v: Verdict)
      ensures v == Psi17(codeSets, row)
    {
      var dxs := GetAllDiagnoses(row);
      if dxs == [] {
        return NoDiagnoses;
      }
      if !PrincipalIn(dxs, Lookup(codeSets, "NEWBORN")) {
        return Exclude(Psi17NotNewborn);
      }
      var dxHit := ScanFirst(dxs, Psi17DxRule(codeSets), 0);
      if dxHit.Some? {
        return dxHit.value;
      }
      if AnyDxIn(dxs, Lookup(codeSets, "BIRTHID")) {
        return Include(Psi17Trauma);
      }
      return Exclude(Psi17NoTrauma);
    }

    method EvaluatePsi18(row: Row) returns (v: Verdict)
      ensures v == Psi18(codeSets, row)
    {
      var dxs := GetAllDiagnoses(row);
      var ps := GetAllProcedures(row);
      if dxs == [] {
        return NoDiagnoses;
      }
      if !AnyDxIn(dxs, Lookup(codeSets, "DELOCMD")) {
        return Exclude(NoDeliveryOutcome);
      }
      if !AnyProcIn(ps, Lookup(codeSets, "VAGDELP")) {
        return Exclude(NoVaginalDelivery);
      }
      if !AnyProcIn(ps, Lookup(codeSets, "INSTRIP")) {
        return Exclude(Psi18NoInstrument);
      }
      if AnyDxIn(dxs, Lookup(codeSets, "OBTRAID")) {
        return Include(Psi18Trauma);
      }
      return Exclude(Psi18NoTrauma);
    }

    method EvaluatePsi19(row: Row) returns (v: Verdict)
      ensures v == Psi19(codeSets, row)
    {
      var dxs := GetAllDiagnoses(row);
      var ps := GetAllProcedures(row);
      if dxs == [] {
        return NoDiagnoses;
      }
      if !AnyDxIn(dxs, Lookup(codeSets, "DELOCMD")) {
        return Exclude(NoDeliveryOutcome);
      }
      if !AnyProcIn(ps, Lookup(codeSets, "VAGDELP")) {
        return Exclude(NoVaginalDelivery);
      }
      if AnyProcIn(ps, Lookup(codeSets, "INSTRIP")) {
        return Exclude(Psi19Instrument);
      }
      if AnyDxIn(dxs, Lookup(codeSets, "OBTRAID")) {
        return Include(Psi19Trauma);
      }
      return Exclude(Psi19NoTrauma);
    }

    // ------------------------------------------------------------ orchestration

    /** Run the evaluator of one indicator. */
    method RunIndicator(i: Dispatch.Indicator, row: Row) returns (v: Verdict)
      ensures v == Dispatch.Evaluate(i, codeSets, catalog, piExdCodes, injuryCodes, row)
    {
      match i
      case Psi02 => v := EvaluatePsi02(row);
      case Psi03 => v := EvaluatePsi03(row);
      case Psi04 => v := EvaluatePsi04(row);
      case Psi05 => v := EvaluatePsi05(row);
      case Psi06 => v := EvaluatePsi06(row);
      case Psi07 => v := EvaluatePsi07(row);
      case Psi08 => v := EvaluatePsi08(row);
      case Psi09 => v := EvaluatePsi09(row);
      case Psi10 => v := EvaluatePsi10(row);
      case Psi11 => v := EvaluatePsi11(row);
      case Psi12 => v := EvaluatePsi12(row);
      case Psi13 => v := EvaluatePsi13(row);
      case Psi14 => v := EvaluatePsi14(row);
      case Psi15 => v := EvaluatePsi15(row);
      case Psi17 => v := EvaluatePsi17(row);
      case Psi18 => v := EvaluatePsi18(row);
      case Psi19 => v := EvaluatePsi19(row);
    }

    /** Run the as-written evaluator of one indicator. */
    method RunIndicatorAsWritten(i: Dispatch.Indicator, row: Row) returns (v: Verdict)
      ensures v == Dispatch.EvaluateAsWritten(i, codeSets, catalog, piExdCodes, injuryCodes, row)
    {
      if i == Dispatch.Psi14 {
        v := EvaluatePsi14AsWritten(row);
      } else {
        v := RunIndicator(i, row);
      }
    }

    /** Base exclusions first; then the method found under `evaluate_` and the lower-cased code, as written. */
    method EvaluatePsiAsWritten(row: Row, psi: string) returns (r: EvalResult)
      ensures r == Dispatch.EvaluatePsiAsWritten(codeSets, catalog, piExdCodes, injuryCodes, row, psi)
    {
      var base := CheckBaseExclusions(row, psi);
      if base.Some? {
        return EvalResult(base.value.status, base.value.reason, psi, map[]);
      }
      var found := Dispatch.MethodNamed("evaluate_" + Dispatch.AsciiLower(psi));
      match found
      case None =>
        return EvalResult(NotImplemented, Dispatch.NotFoundPrefix + psi + Dispatch.NotFoundSuffix, psi, map[]);
      case Some(OrchestratorMethod) =>
        return EvalResult(Error, Dispatch.ErrorPrefix + Dispatch.UnhashableDict, psi, map[]);
      case Some(IndicatorMethod(i)) =>
        var v := RunIndicatorAsWritten(i, row);
        return EvalResult(v.status, v.reason, psi, map[]);
    }

    /** Base exclusions first; then the indicator's evaluator, found by registry id. */
    method EvaluatePsi(row: Row, psi: string) returns (r: EvalResult)
      ensures r == Dispatch.EvaluatePsi(codeSets, catalog, piExdCodes, injuryCodes, row, psi)
    {
      var base := CheckBaseExclusions(row, psi);
      if base.Some? {
        return EvalResult(base.value.status, base.value.reason, psi, map[]);
      }
      var found := Dispatch.EvaluatorFor(psi);
      if found.None? {
        return EvalResult(NotImplemented, Dispatch.NotFoundPrefix + psi + Dispatch.NotFoundSuffix, psi, map[]);
      }
      var v := RunIndicator(found.value, row);
      return EvalResult(v.status, v.reason, psi, map[]);
    }
  }
}
