/**
 * The classifications the evaluators attach to a case: the PSI-15 organ system of
 * an injury code, the PSI-13 immune-risk category, the PSI-14 surgical-approach
 * stratum, the PSI-15 procedure-complexity category, and the PSI-04
 * serious-complication stratum (its inclusion test, its exclusion texts and the
 * priority order).
 */
module Assigners {
  import opened Wrappers
  import opened Scans
  import opened CodeSets
  import opened Encounter
  import opened Dates
  import opened Definitions

  // ---------------------------------------------------------------- PSI-15 organ systems

  /** The set name an organ system lists for diagnoses or for procedures. */
  function SetNameOf(s: OrganSystem, isDx: bool): string
  {
    if isDx then s.dxCodes else s.procCodes
  }

  function OrganCheck(cs: Registry, code: string, isDx: bool): OrganSystem -> Option<OrganSystem>
  {
    s => var n := SetNameOf(s, isDx); if n in cs && code in cs[n] then Some(s) else None
  }

  /** The first organ system, in the fixed order, whose set holds the code. */
  function OrganSystemOf(cs: Registry, code: string, isDx: bool): Option<OrganSystem>
  {
    FirstSome(OrganSystems, OrganCheck(cs, code, isDx), 0)
  }

  /**
   * The organ lookup finds a system exactly when one of the systems' sets holds the
   * code, and what it finds is the first such system in the fixed order.
   */
  lemma OrganSystemOfCharacterized(cs: Registry, code: string, isDx: bool)
    ensures OrganSystemOf(cs, code, isDx).None? <==>
              forall k :: 0 <= k < |OrganSystems| ==> code !in Lookup(cs, SetNameOf(OrganSystems[k], isDx))
    ensures OrganSystemOf(cs, code, isDx).Some? ==>
              exists k :: 0 <= k < |OrganSystems| && OrganSystemOf(cs, code, isDx) == Some(OrganSystems[k]) &&
                code in Lookup(cs, SetNameOf(OrganSystems[k], isDx)) &&
                forall j :: 0 <= j < k ==> code !in Lookup(cs, SetNameOf(OrganSystems[j], isDx))
  {
    var check := OrganCheck(cs, code, isDx);
    FirstSomeNone(OrganSystems, check, 0);
    assert forall k :: 0 <= k < |OrganSystems| ==>
      (check(OrganSystems[k]).None? <==> code !in Lookup(cs, SetNameOf(OrganSystems[k], isDx)));
    if OrganSystemOf(cs, code, isDx).Some? {
      FirstSomeWitness(OrganSystems, check, 0);
    }
  }

  /** A diagnosis code has an organ system exactly when it is in the consolidated PSI-15 injury set. */
  lemma InjuryCodeHasOrganSystem(cs: Registry, code: string)
    ensures OrganSystemOf(cs, code, true).Some? <==> code in Psi15InjuryCodes(cs)
  {
    OrganSystemOfCharacterized(cs, code, true);
    if code in Psi15InjuryCodes(cs) {
      var k :| 0 <= k < |OrganSystems| && code in Lookup(cs, OrganSystems[k].dxCodes);
      assert code in Lookup(cs, SetNameOf(OrganSystems[k], true));
    }
    if OrganSystemOf(cs, code, true).Some? {
      var k :| 0 <= k < |OrganSystems| && code in Lookup(cs, SetNameOf(OrganSystems[k], true));
      assert code in Lookup(cs, OrganSystems[k].dxCodes);
    }
  }

  // ---------------------------------------------------------------- PSI-13 risk

  /** PSI-13 immune-risk categories, highest priority first. */
  function Psi13RiskCategory(cs: Registry, dxs: seq<DxEntry>, ps: seq<ProcEntry>): string
  {
    if AnyDxIn(dxs, Lookup(cs, "SEVEREIMMUNEDX")) || AnyProcIn(ps, Lookup(cs, "SEVEREIMMUNEPROC")) then
      "severe_immune_compromise"
    else if AnyDxIn(dxs, Lookup(cs, "MODERATEIMMUNEDX")) || AnyProcIn(ps, Lookup(cs, "MODERATEIMMUNEPROC")) then
      "moderate_immune_compromise"
    else if AnyDxIn(dxs, Lookup(cs, "CANCEID")) && AnyProcIn(ps, Lookup(cs, "CHEMORADTXPROC")) then
      "malignancy_with_treatment"
    else
      "baseline_risk"
  }

  /** Rank of a PSI-13 category: 3 for the highest risk, 0 for baseline. */
  function Psi13Rank(category: string): int
  {
    if category == "severe_immune_compromise" then 3
    else if category == "moderate_immune_compromise" then 2
    else if category == "malignancy_with_treatment" then 1
    else 0
  }

  /** Recording one more diagnosis or procedure never lowers the PSI-13 risk category. */
  lemma Psi13RiskMonotone(cs: Registry, dxs: seq<DxEntry>, ps: seq<ProcEntry>, d: DxEntry, p: ProcEntry)
    ensures Psi13Rank(Psi13RiskCategory(cs, dxs, ps)) <= Psi13Rank(Psi13RiskCategory(cs, dxs + [d], ps))
    ensures Psi13Rank(Psi13RiskCategory(cs, dxs, ps)) <= Psi13Rank(Psi13RiskCategory(cs, dxs, ps + [p]))
  {
    forall codes: set<string> | AnyDxIn(dxs, codes) ensures AnyDxIn(dxs + [d], codes) {
      var k :| 0 <= k < |dxs| && dxs[k].code in codes;
      assert (dxs + [d])[k] == dxs[k];
    }
    forall codes: set<string> | AnyProcIn(ps, codes) ensures AnyProcIn(ps + [p], codes) {
      var k :| 0 <= k < |ps| && ps[k].code in codes;
      assert (ps + [p])[k] == ps[k];
    }
  }

  // ---------------------------------------------------------------- PSI-14 stratum

  /** PSI-14 approach stratum; an open approach takes priority. */
  function Psi14Stratum(cs: Registry, ps: seq<ProcEntry>): string
  {
    if AnyProcIn(ps, Lookup(cs, "ABDOMIPOPEN")) then "open_approach"
    else if AnyProcIn(ps, Lookup(cs, "ABDOMIPOTHER")) then "non_open_approach"
    else "unknown_approach"
  }

  // ---------------------------------------------------------------- PSI-15 risk

  /** The dated procedures on the given calendar day, in order. */
  function ProceduresOnDay(ps: seq<ProcEntry>, day: int): seq<ProcEntry>
    decreases |ps|
  {
    if ps == [] then []
    else
      var p := ps[|ps| - 1];
      ProceduresOnDay(ps[..|ps| - 1], day) +
        (if p.date.Some? && CalendarDay(p.date.value) == day then [p] else [])
  }

  lemma {:induction false} ProceduresOnDayMembers(ps: seq<ProcEntry>, day: int)
    ensures forall p :: p in ProceduresOnDay(ps, day) <==> p in ps && p.date.Some? && CalendarDay(p.date.value) == day
    decreases |ps|
  {
    if ps != [] {
      ProceduresOnDayMembers(ps[..|ps| - 1], day);
      assert ps == ps[..|ps| - 1] + [ps[|ps| - 1]];
    }
  }

  /** PSI-15 complexity from the procedures on the index procedure's calendar day. */
  function Psi15RiskCategory(cs: Registry, ps: seq<ProcEntry>, index: Option<int>): string
  {
    if index.None? then "low_complexity"
    else
      var onDay := ProceduresOnDay(ps, CalendarDay(index.value));
      if AnyProcIn(onDay, Lookup(cs, "PCLASSHIGH")) then "high_complexity"
      else if AnyProcIn(onDay, Lookup(cs, "PCLASSMODERATE")) then "moderate_complexity"
      else "low_complexity"
  }

  /** A procedure dated on the same calendar day as the timestamp, with a code from the set. */
  predicate SameDayProcedureIn(ps: seq<ProcEntry>, t: int, codes: set<string>)
  {
    exists k :: 0 <= k < |ps| && ps[k].date.Some? && CalendarDay(ps[k].date.value) == CalendarDay(t) && ps[k].code in codes
  }

  /**
   * High complexity exactly when a `PCLASSHIGH` procedure falls on the index date,
   * moderate exactly when none does but a `PCLASSMODERATE` one does; without an index
   * date the category is low.
   */
  lemma Psi15RiskCharacterized(cs: Registry, ps: seq<ProcEntry>, index: Option<int>)
    ensures Psi15RiskCategory(cs, ps, index) == "high_complexity" <==>
              index.Some? && SameDayProcedureIn(ps, index.value, Lookup(cs, "PCLASSHIGH"))
    ensures Psi15RiskCategory(cs, ps, index) == "moderate_complexity" <==>
              index.Some? && !SameDayProcedureIn(ps, index.value, Lookup(cs, "PCLASSHIGH")) &&
              SameDayProcedureIn(ps, index.value, Lookup(cs, "PCLASSMODERATE"))
    ensures index.None? ==> Psi15RiskCategory(cs, ps, index) == "low_complexity"
  {
    if index.Some? {
      var day := CalendarDay(index.value);
      var onDay := ProceduresOnDay(ps, day);
      ProceduresOnDayMembers(ps, day);
      forall codes: set<string> ensures AnyProcIn(onDay, codes) <==> SameDayProcedureIn(ps, index.value, codes) {
        if AnyProcIn(onDay, codes) {
          var k :| 0 <= k < |onDay| && onDay[k].code in codes;
          assert onDay[k] in ps;
          var j :| 0 <= j < |ps| && ps[j] == onDay[k];
        }
        if SameDayProcedureIn(ps, index.value, codes) {
          var j :| 0 <= j < |ps| && ps[j].date.Some? && CalendarDay(ps[j].date.value) == day && ps[j].code in codes;
          assert ps[j] in onDay;
          var k :| 0 <= k < |onDay| && onDay[k] == ps[j];
        }
      }
    }
  }

  // ---------------------------------------------------------------- PSI-04 strata

  /** The set of secondary not-present-on-admission diagnoses that opens each stratum. */
  function StratumDxSet(s: Stratum): string
  {
    match s
    case Shock => "FTR5DX"
    case Sepsis => "FTR4DX"
    case Pneumonia => "FTR3DX"
    case GiHemorrhage => "FTR6DX"
    case DvtPe => "FTR2DXB"
  }

  /**
   * Stratum inclusion: a secondary diagnosis from the stratum's set that is not present
   * on admission or, for shock only, an `FTR5PR` procedure on or after the day of the
   * first OR procedure.
   */
  predicate StratumInclusion(cs: Registry, s: Stratum, dxs: seq<DxEntry>, ps: seq<ProcEntry>, firstOr: Option<int>)
  {
    || AnySecondaryNotPoaIn(dxs, Lookup(cs, StratumDxSet(s)))
    || (s == Shock && ProcedureInWindow(cs, ps, firstOr, "FTR5PR", AtLeast(0, true)))
  }

  /** The principal diagnosis code as the stratum check reads it: the first entry's, if any. */
  function PrincipalCode(dxs: seq<DxEntry>): Option<string>
  {
    if dxs == [] then None else Some(dxs[0].code)
  }

  /**
   * Whether one exclusion text removes the case, checked phrase by phrase in the
   * order of the evaluator's `elif` chain: the first phrase the text contains
   * decides, except that an MDC phrase only decides when the MDC matches.
   */
  predicate TextExcludes(cs: Registry, t: StratumText, principal: Option<string>, dxs: seq<DxEntry>,
                         ps: seq<ProcEntry>, mdc: Option<int>)
  {
    if t.principalOf.Some? then
      principal.Some? && principal.value != "" && principal.value in Lookup(cs, t.principalOf.value)
    else if t.anyOf.Some? then AnyDxIn(dxs, Lookup(cs, t.anyOf.value))
    else if t.varicesWithBleeding then AnyDxIn(dxs, Lookup(cs, "FTR6GV")) && AnyDxIn(dxs, Lookup(cs, "FTR6QD"))
    else if t.mdcRespiratory && mdc == Some(4) then true
    else if t.mdcCirculatory && mdc == Some(5) then true
    else if t.mdcDigestive && mdc == Some(6) then true
    else if t.mdcHepatobiliary && mdc == Some(7) then true
    else if t.lungCancerProcedure then AnyProcIn(ps, Lookup(cs, "LUNGCIP"))
    else false
  }

  /** Some exclusion text of the stratum removes the case. */
  predicate StratumExcluded(cs: Registry, texts: seq<StratumText>, dxs: seq<DxEntry>, ps: seq<ProcEntry>, mdc: Option<int>)
  {
    exists k :: 0 <= k < |texts| && TextExcludes(cs, texts[k], PrincipalCode(dxs), dxs, ps, mdc)
  }

  /** The case qualifies for the stratum: it meets the inclusion and no exclusion text removes it. */
  predicate QualifiesForStratum(cs: Registry, cat: Catalog, s: Stratum, dxs: seq<DxEntry>, ps: seq<ProcEntry>,
                                firstOr: Option<int>, mdc: Option<int>)
  {
    StratumInclusion(cs, s, dxs, ps, firstOr) && !StratumExcluded(cs, StratumTexts(cat, s.Name()), dxs, ps, mdc)
  }

  function StratumCheck(cs: Registry, cat: Catalog, dxs: seq<DxEntry>, ps: seq<ProcEntry>,
                        firstOr: Option<int>, mdc: Option<int>): Stratum -> Option<Stratum>
  {
    s => if QualifiesForStratum(cs, cat, s, dxs, ps, firstOr, mdc) then Some(s) else None
  }

  /** The highest-priority stratum the case qualifies for. */
  function AssignedStratum(cs: Registry, cat: Catalog, dxs: seq<DxEntry>, ps: seq<ProcEntry>,
                           firstOr: Option<int>, mdc: Option<int>): Option<Stratum>
  {
    FirstSome(StrataPriority, StratumCheck(cs, cat, dxs, ps, firstOr, mdc), 0)
  }

  /**
   * The assigned stratum is one the case qualifies for and every stratum of higher
   * priority fails; none is assigned exactly when the case qualifies for no stratum.
   */
  lemma AssignedStratumIsHighestQualifying(cs: Registry, cat: Catalog, dxs: seq<DxEntry>, ps: seq<ProcEntry>,
                                           firstOr: Option<int>, mdc: Option<int>)
    ensures AssignedStratum(cs, cat, dxs, ps, firstOr, mdc).None? <==>
              forall k :: 0 <= k < |StrataPriority| ==> !QualifiesForStratum(cs, cat, StrataPriority[k], dxs, ps, firstOr, mdc)
    ensures AssignedStratum(cs, cat, dxs, ps, firstOr, mdc).Some? ==>
              exists k :: 0 <= k < |StrataPriority| &&
                AssignedStratum(cs, cat, dxs, ps, firstOr, mdc) == Some(StrataPriority[k]) &&
                QualifiesForStratum(cs, cat, StrataPriority[k], dxs, ps, firstOr, mdc) &&
                forall j :: 0 <= j < k ==> !QualifiesForStratum(cs, cat, StrataPriority[j], dxs, ps, firstOr, mdc)
  {
    var check := StratumCheck(cs, cat, dxs, ps, firstOr, mdc);
    FirstSomeNone(StrataPriority, check, 0);
    if AssignedStratum(cs, cat, dxs, ps, firstOr, mdc).Some? {
      FirstSomeWitness(StrataPriority, check, 0);
    }
  }

  /**
   * Whatever stratum is assigned, the case has a secondary complication diagnosis that
   * was not present on admission, or it is shock with a qualifying post-operative
   * `FTR5PR` procedure.
   */
  lemma AssignedStratumHasComplication(cs: Registry, cat: Catalog, dxs: seq<DxEntry>, ps: seq<ProcEntry>,
                                       firstOr: Option<int>, mdc: Option<int>)
    requires AssignedStratum(cs, cat, dxs, ps, firstOr, mdc).Some?
    ensures var s := AssignedStratum(cs, cat, dxs, ps, firstOr, mdc).value;
            AnySecondaryNotPoaIn(dxs, Lookup(cs, StratumDxSet(s))) ||
            (s == Shock && ProcedureInWindow(cs, ps, firstOr, "FTR5PR", AtLeast(0, true)))
  {
    AssignedStratumIsHighestQualifying(cs, cat, dxs, ps, firstOr, mdc);
  }
}
