/**
 * The orchestrator: apply the base exclusions, find the indicator's evaluator,
 * run it, and package its verdict (or its failure) as an evaluation result.
 *
 * The evaluator is found by name. As written, the name is `evaluate_` followed by
 * the lower-cased indicator id; the registry's ids carry an underscore (`PSI_02`)
 * that the evaluator names lack (`evaluate_psi02`), so no registry id finds its
 * evaluator. `AsWrittenEvaluatorFor` models that lookup and `EvaluatorFor` the
 * lookup by registry id that the rest of the model uses.
 */
module Dispatch {
  import opened Wrappers
  import opened Scans
  import opened CodeSets
  import opened Encounter
  import opened Definitions
  import opened Verdicts
  import opened BaseExclusions
  import Mortality = MortalityIndicators
  import Hospital = HospitalAcquiredIndicators
  import Postoperative = PostoperativeIndicators
  import Abdominopelvic = AbdominopelvicIndicators
  import Perinatal = PerinatalIndicators

  /** The indicators that have an evaluator (there is none for PSI-16). */
  datatype Indicator =
    | Psi02 | Psi03 | Psi04 | Psi05 | Psi06 | Psi07 | Psi08 | Psi09 | Psi10
    | Psi11 | Psi12 | Psi13 | Psi14 | Psi15 | Psi17 | Psi18 | Psi19
  {
    /** The two-digit number of the indicator. */
    function Number(): (n: string)
      ensures |n| == 2 && '0' <= n[0] <= '9' && '0' <= n[1] <= '9'
    {
      match this
      case Psi02 => "02" case Psi03 => "03" case Psi04 => "04" case Psi05 => "05"
      case Psi06 => "06" case Psi07 => "07" case Psi08 => "08" case Psi09 => "09"
      case Psi10 => "10" case Psi11 => "11" case Psi12 => "12" case Psi13 => "13"
      case Psi14 => "14" case Psi15 => "15" case Psi17 => "17" case Psi18 => "18"
      case Psi19 => "19"
    }

    /** The indicator's id in the registry and the definitions catalog, such as `PSI_02`. */
    function Id(): string
    {
      "PSI_" + Number()
    }

    /** The name of the indicator's evaluator method, such as `evaluate_psi02`. */
    function MethodName(): string
    {
      "evaluate_psi" + Number()
    }
  }

  const Indicators: seq<Indicator> :=
    [Psi02, Psi03, Psi04, Psi05, Psi06, Psi07, Psi08, Psi09, Psi10,
     Psi11, Psi12, Psi13, Psi14, Psi15, Psi17, Psi18, Psi19]

  /** Where an indicator sits in `Indicators`. */
  function Position(i: Indicator): (k: nat)
    ensures k < |Indicators| && Indicators[k] == i
  {
    match i
    case Psi02 => 0 case Psi03 => 1 case Psi04 => 2 case Psi05 => 3 case Psi06 => 4
    case Psi07 => 5 case Psi08 => 6 case Psi09 => 7 case Psi10 => 8 case Psi11 => 9
    case Psi12 => 10 case Psi13 => 11 case Psi14 => 12 case Psi15 => 13 case Psi17 => 14
    case Psi18 => 15 case Psi19 => 16
  }

  /** Two indicators with the same number are the same indicator. */
  lemma NumbersDistinct(i: Indicator, j: Indicator)
    requires i.Number() == j.Number()
    ensures i == j
  {
    assert i.Number()[0] == j.Number()[0] && i.Number()[1] == j.Number()[1];
  }

  /** Ids tell the indicators apart. */
  lemma IdsDistinct(i: Indicator, j: Indicator)
    requires i.Id() == j.Id()
    ensures i == j
  {
    assert i.Number() == i.Id()[4..] && j.Number() == j.Id()[4..];
    NumbersDistinct(i, j);
  }

  /** So do the evaluators' method names. */
  lemma MethodNamesDistinct(i: Indicator, j: Indicator)
    requires i.MethodName() == j.MethodName()
    ensures i == j
  {
    assert i.Number() == i.MethodName()[12..] && j.Number() == j.MethodName()[12..];
    NumbersDistinct(i, j);
  }

  // ---------------------------------------------------------------- lookup by name, as written

  /** ASCII upper-case letters become lower-case; everything else is kept. */
  function LowerChar(c: char): char
  {
    if 'A' <= c <= 'Z' then (c as int + 32) as char else c
  }

  function AsciiLower(s: string): (r: string)
    ensures |r| == |s|
    ensures forall k :: 0 <= k < |s| ==> r[k] == LowerChar(s[k])
  {
    if s == [] then [] else [LowerChar(s[0])] + AsciiLower(s[1..])
  }

  /** The evaluator whose method is called `name`, if there is one. */
  function EvaluatorNamed(name: string): Option<Indicator>
  {
    FirstSome(Indicators, (i: Indicator) => if i.MethodName() == name then Some(i) else None, 0)
  }

  /** A method of the calculator that the name lookup can find: the orchestrator itself or an indicator's evaluator. */
  datatype Evaluator = OrchestratorMethod | IndicatorMethod(indicator: Indicator)

  /** The orchestrator's own method name, which the lookup finds for the indicator code `psi` in any letter case. */
  const OrchestratorName := "evaluate_psi"

  /** The calculator method called `name`, among the orchestrator and the evaluators. */
  function MethodNamed(name: string): Option<Evaluator>
  {
    if name == OrchestratorName then Some(OrchestratorMethod)
    else match EvaluatorNamed(name)
      case Some(i) => Some(IndicatorMethod(i))
      case None => None
  }

  /** The method the orchestrator looks up for `psi`, as written. */
  function AsWrittenEvaluatorFor(psi: string): Option<Evaluator>
  {
    MethodNamed("evaluate_" + AsciiLower(psi))
  }

  /** The code `PSI`, in any letter case, finds the orchestrator itself. */
  lemma CodePsiFindsOrchestrator(psi: string)
    requires AsciiLower(psi) == "psi"
    ensures AsWrittenEvaluatorFor(psi) == Some(OrchestratorMethod)
  {
  }

  /** No registry id finds an evaluator: the looked-up name is one character longer than every method name. */
  lemma RegistryIdsFindNoEvaluator(i: Indicator)
    ensures AsWrittenEvaluatorFor(i.Id()) == None
  {
    var name := "evaluate_" + AsciiLower(i.Id());
    assert |name| == 15 && |OrchestratorName| == 12;
    var check := (j: Indicator) => if j.MethodName() == name then Some(j) else None;
    forall k | 0 <= k < |Indicators|
      ensures check(Indicators[k]).None?
    {
      assert |Indicators[k].MethodName()| == 14;
    }
    FirstSomeNone(Indicators, check, 0);
  }

  /** Lower-casing `PSI` followed by two digits gives `psi` and the same digits. */
  lemma LowerUnderscoreFreeId(n: string)
    requires |n| == 2 && '0' <= n[0] <= '9' && '0' <= n[1] <= '9'
    ensures AsciiLower("PSI" + n) == "psi" + n
  {
    var lowered := AsciiLower("PSI" + n);
    forall k | 0 <= k < 5
      ensures lowered[k] == ("psi" + n)[k]
    {
      assert lowered[k] == LowerChar(("PSI" + n)[k]);
    }
  }

  /** The name scan finds the indicator whose method has that name. */
  lemma MethodNameFindsEvaluator(i: Indicator)
    ensures EvaluatorNamed(i.MethodName()) == Some(i)
  {
    var check := (j: Indicator) => if j.MethodName() == i.MethodName() then Some(j) else None;
    var k := Position(i);
    forall j | 0 <= j < k
      ensures check(Indicators[j]).None?
    {
      if Indicators[j].MethodName() == i.MethodName() {
        MethodNamesDistinct(Indicators[j], i);
      }
    }
    FirstSomeAt(Indicators, check, 0, k);
  }

  /** Only the spelling without the underscore, such as `PSI02`, reaches an evaluator. */
  lemma UnderscoreFreeIdFindsEvaluator(i: Indicator)
    ensures AsWrittenEvaluatorFor("PSI" + i.Number()) == Some(IndicatorMethod(i))
  {
    LowerUnderscoreFreeId(i.Number());
    assert "evaluate_" + ("psi" + i.Number()) == i.MethodName();
    assert |i.MethodName()| == 14 && |OrchestratorName| == 12;
    MethodNameFindsEvaluator(i);
  }

  // ---------------------------------------------------------------- lookup by registry id, corrected

  /** The evaluator of the indicator whose registry id is `psi`. */
  function EvaluatorFor(psi: string): Option<Indicator>
  {
    FirstSome(Indicators, (i: Indicator) => if i.Id() == psi then Some(i) else None, 0)
  }

  /** Every registry id finds its own evaluator. */
  lemma RegistryIdFindsEvaluator(i: Indicator)
    ensures EvaluatorFor(i.Id()) == Some(i)
  {
    var check := (j: Indicator) => if j.Id() == i.Id() then Some(j) else None;
    var k := Position(i);
    forall j | 0 <= j < k
      ensures check(Indicators[j]).None?
    {
      if Indicators[j].Id() == i.Id() {
        IdsDistinct(Indicators[j], i);
      }
    }
    FirstSomeAt(Indicators, check, 0, k);
  }

  /** An id that is no indicator's finds no evaluator. */
  lemma UnknownIdFindsNoEvaluator(psi: string)
    requires forall i: Indicator :: i.Id() != psi
    ensures EvaluatorFor(psi) == None
  {
    FirstSomeNone(Indicators, (i: Indicator) => if i.Id() == psi then Some(i) else None, 0);
  }

  // ---------------------------------------------------------------- running an evaluator

  /**
   * The verdict of the indicator's evaluator. Each evaluator reads the calculator's
   * registry; PSI-03 and PSI-15 also read the two code unions the calculator builds
   * when it is created, and PSI-04 reads the definitions catalog.
   */
  function Evaluate(i: Indicator, cs: Registry, cat: Catalog, piExd: set<string>, injury: set<string>, row: Row): Verdict
  {
    match i
    case Psi02 => Mortality.Psi02(cs, row)
    case Psi03 => Hospital.Psi03(cs, piExd, row)
    case Psi04 => Mortality.Psi04(cs, cat, row)
    case Psi05 => Hospital.Psi05(cs, row)
    case Psi06 => Hospital.Psi06(cs, row)
    case Psi07 => Hospital.Psi07(cs, row)
    case Psi08 => Hospital.Psi08(cs, row)
    case Psi09 => Postoperative.Psi09(cs, row)
    case Psi10 => Postoperative.Psi10(cs, row)
    case Psi11 => Postoperative.Psi11(cs, row)
    case Psi12 => Postoperative.Psi12(cs, row)
    case Psi13 => Postoperative.Psi13(cs, row)
    case Psi14 => Abdominopelvic.Psi14(cs, row)
    case Psi15 => Abdominopelvic.Psi15(cs, injury, row)
    case Psi17 => Perinatal.Psi17(cs, row)
    case Psi18 => Perinatal.Psi18(cs, row)
    case Psi19 => Perinatal.Psi19(cs, row)
  }

  /**
   * The verdict of the indicator's evaluator as written: PSI-14 counts a reclosure
   * whether its date resolved or not; every other evaluator is the one above.
   */
  function EvaluateAsWritten(i: Indicator, cs: Registry, cat: Catalog, piExd: set<string>, injury: set<string>, row: Row): Verdict
  {
    if i == Psi14 then Abdominopelvic.Psi14AsWritten(cs, row) else Evaluate(i, cs, cat, piExd, injury, row)
  }

  const ErrorPrefix := "An error occurred during PSI evaluation: "
  const NotFoundPrefix := "Evaluation logic for "
  const NotFoundSuffix := " not found."

  /**
   * How the orchestrator combines the base check's verdict with the outcome of the
   * evaluator it found (`None` when it found none). The result always names the
   * requested indicator and carries no details.
   */
  function Orchestrate(psi: string, base: Option<Verdict>, run: Option<Outcome>): (r: EvalResult)
    ensures r.indicator == psi && r.details == map[]
  {
    if base.Some? then EvalResult(base.value.status, base.value.reason, psi, map[])
    else match run
      case None => EvalResult(NotImplemented, NotFoundPrefix + psi + NotFoundSuffix, psi, map[])
      case Some(Returned(v)) => EvalResult(v.status, v.reason, psi, map[])
      case Some(Raised(m)) => EvalResult(Error, ErrorPrefix + m, psi, map[])
  }

  /** A base exclusion decides the result: whatever the evaluator would do makes no difference. */
  lemma BaseExclusionDecides(psi: string, v: Verdict, run1: Option<Outcome>, run2: Option<Outcome>)
    ensures Orchestrate(psi, Some(v), run1) == Orchestrate(psi, Some(v), run2)
    ensures Orchestrate(psi, Some(v), run1).status == v.status
  {
  }

  /** Once the base check passes: no evaluator is "Not Implemented", a failing one is "Error" with its message, and a returned verdict is passed on. */
  lemma OrchestrateOutcomes(psi: string, run: Option<Outcome>)
    ensures run.None? ==> Orchestrate(psi, None, run).status == NotImplemented
    ensures run.Some? && run.value.Raised? ==>
              Orchestrate(psi, None, run).status == Error &&
              Orchestrate(psi, None, run).reason == ErrorPrefix + run.value.message
    ensures run.Some? && run.value.Returned? ==>
              Orchestrate(psi, None, run).status == run.value.verdict.status &&
              Orchestrate(psi, None, run).reason == run.value.verdict.reason
  {
  }

  /** The outcome of running the evaluator the lookup found; the modelled evaluators always return. */
  function RunEvaluator(found: Option<Indicator>, cs: Registry, cat: Catalog, piExd: set<string>, injury: set<string>, row: Row): Option<Outcome>
  {
    match found
    case None => None
    case Some(i) => Some(Returned(Evaluate(i, cs, cat, piExd, injury, row)))
  }

  /**
   * The message of the exception raised when the orchestrator finds itself: it is
   * called again with the code-set dictionary in place of the indicator code, and
   * looking that dictionary up among the definitions fails.
   */
  const UnhashableDict := "unhashable type: 'dict'"

  /** The outcome of running the method the as-written lookup found. */
  function RunAsWritten(found: Option<Evaluator>, cs: Registry, cat: Catalog, piExd: set<string>, injury: set<string>, row: Row): Option<Outcome>
  {
    match found
    case None => None
    case Some(OrchestratorMethod) => Some(Raised(UnhashableDict))
    case Some(IndicatorMethod(i)) => Some(Returned(EvaluateAsWritten(i, cs, cat, piExd, injury, row)))
  }

  /** `evaluate_psi` as written: the method is looked up by the lower-cased name and runs the as-written evaluators. */
  function EvaluatePsiAsWritten(cs: Registry, cat: Catalog, piExd: set<string>, injury: set<string>, row: Row, psi: string): EvalResult
  {
    Orchestrate(psi, BaseExclusion(cs, cat, row, psi), RunAsWritten(AsWrittenEvaluatorFor(psi), cs, cat, piExd, injury, row))
  }

  /** `evaluate_psi` with the evaluator looked up by registry id. */
  function EvaluatePsi(cs: Registry, cat: Catalog, piExd: set<string>, injury: set<string>, row: Row, psi: string): EvalResult
  {
    Orchestrate(psi, BaseExclusion(cs, cat, row, psi), RunEvaluator(EvaluatorFor(psi), cs, cat, piExd, injury, row))
  }

  /** As written, an encounter that passes the base check is "Not Implemented" for every indicator of the registry. */
  lemma AsWrittenNeverEvaluates(cs: Registry, cat: Catalog, piExd: set<string>, injury: set<string>, row: Row, i: Indicator)
    ensures var r := EvaluatePsiAsWritten(cs, cat, piExd, injury, row, i.Id());
            && (BaseRuleFor(cs, cat, row, i.Id()).None? ==>
                  r.status == NotImplemented && r.reason == NotFoundPrefix + i.Id() + NotFoundSuffix)
            && (BaseRuleFor(cs, cat, row, i.Id()).Some? ==> r.status == Exclusion)
  {
    RegistryIdsFindNoEvaluator(i);
  }

  /**
   * As written, the spelling without the underscore, such as `PSI14`, runs the
   * indicator's as-written evaluator once the base check passes.
   */
  lemma AsWrittenUnderscoreFreeIdEvaluates(cs: Registry, cat: Catalog, piExd: set<string>, injury: set<string>, row: Row, i: Indicator)
    ensures var psi := "PSI" + i.Number();
            var r := EvaluatePsiAsWritten(cs, cat, piExd, injury, row, psi);
            BaseRuleFor(cs, cat, row, psi).None? ==>
              r.status == EvaluateAsWritten(i, cs, cat, piExd, injury, row).status &&
              r.reason == EvaluateAsWritten(i, cs, cat, piExd, injury, row).reason
  {
    UnderscoreFreeIdFindsEvaluator(i);
  }

  /**
   * As written, the code `PSI` in any letter case makes the orchestrator call itself
   * with the code sets as the indicator code; once the base check passes, the result
   * is "Error" with the lookup failure's message.
   */
  lemma CodePsiIsError(cs: Registry, cat: Catalog, piExd: set<string>, injury: set<string>, row: Row, psi: string)
    requires AsciiLower(psi) == "psi"
    ensures var r := EvaluatePsiAsWritten(cs, cat, piExd, injury, row, psi);
            && (BaseRuleFor(cs, cat, row, psi).None? ==> r.status == Error && r.reason == ErrorPrefix + UnhashableDict)
            && (BaseRuleFor(cs, cat, row, psi).Some? ==>
                  r.status == Exclusion && r.reason == BaseRuleFor(cs, cat, row, psi).value.Reason())
  {
    CodePsiFindsOrchestrator(psi);
  }

  /** With the corrected lookup the base exclusion still comes first, and otherwise the indicator's own verdict is the result. */
  lemma EvaluatePsiRunsIndicator(cs: Registry, cat: Catalog, piExd: set<string>, injury: set<string>, row: Row, i: Indicator)
    ensures var r := EvaluatePsi(cs, cat, piExd, injury, row, i.Id());
            && r.indicator == i.Id() && r.details == map[]
            && (BaseRuleFor(cs, cat, row, i.Id()).Some? ==>
                  r.status == Exclusion && r.reason == BaseRuleFor(cs, cat, row, i.Id()).value.Reason())
            && (BaseRuleFor(cs, cat, row, i.Id()).None? ==>
                  r.status == Evaluate(i, cs, cat, piExd, injury, row).status &&
                  r.reason == Evaluate(i, cs, cat, piExd, injury, row).reason)
  {
    RegistryIdFindsEvaluator(i);
  }

  /** An id no indicator has passes the base check under the empty definition and is then "Not Implemented". */
  lemma UnknownIdNotImplemented(cs: Registry, cat: Catalog, piExd: set<string>, injury: set<string>, row: Row, psi: string)
    requires forall i: Indicator :: i.Id() != psi
    requires BaseRuleFor(cs, cat, row, psi).None?
    ensures EvaluatePsi(cs, cat, piExd, injury, row, psi).status == NotImplemented
    ensures EvaluatePsi(cs, cat, piExd, injury, row, psi).reason == NotFoundPrefix + psi + NotFoundSuffix
  {
    UnknownIdFindsNoEvaluator(psi);
  }
}
