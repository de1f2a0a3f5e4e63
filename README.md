# PSI encounter classification, modelled in Dafny

This project models the classification engine of a Patient Safety Indicator (PSI)
calculator: the class `PSICalculator` in `PSI_02_19_Gemini_v2_Fixed.py`. Given one
discharge record, the engine decides for PSI-02 … PSI-19 (PSI-16 has no evaluator)
whether the encounter is in the indicator's numerator ("Inclusion"), is excluded
("Exclusion", with a reason), or cannot be evaluated. In order, it:

- extracts the diagnoses (`Pdx`, `DX1`…`DX25`, each paired with its present-on-admission
  (POA) flag) and the procedures (`Proc1`…`Proc10`) with their dates, where present;
- applies the base exclusions shared by every indicator: missing required fields, the
  population's age floor, newborn and obstetric discharges, DRG 999;
- runs the indicator's own decision tree over named code sets from the registry and
  the indicator definitions catalog.

The model has two layers.

- **Specification functions.** Each indicator's decision tree is a pure function from
  the registry and an encounter row to a `Verdict(status, reason)`. The modules are
  `MortalityIndicators`, `HospitalAcquiredIndicators`, `PostoperativeIndicators`,
  `AbdominopelvicIndicators` and `PerinatalIndicators`. The shared pieces live in
  `ColumnNames`, `Encounter`, `Dates`, `Definitions`, `BaseExclusions`, `Assigners`, `Criteria` and
  `Dispatch`. For every indicator, a lemma says exactly when it admits a case, or
  what an admitted case must satisfy.
- **The calculator.** The class `Calculator.PsiCalculator` mirrors the source class.
  - Its constructor builds the two code unions the source computes in `__init__`, by
    loops over the registry.
  - Its methods do what the source's methods do, step by step: extraction loops,
    earliest/latest-date scans, the procedure-timing flag loop, the growing
    required-field list, and every evaluator's scans with early returns.
  - Two source behaviours are recorded under "Findings" as defects. For each, the
    class has both a method that follows the code as written and one with the
    correction:
    - `EvaluatePsiAsWritten` looks up evaluators by the lower-cased code; `EvaluatePsi`
      looks them up by registry id.
    - `EvaluatePsi14AsWritten` counts any reclosure; `EvaluatePsi14` counts only a
      dated one.
    The as-written orchestrator runs the as-written evaluators (`RunIndicatorAsWritten`).
    The corrected one runs the corrected evaluators (`RunIndicator`).
  - Each method is proved equal to the specification function it implements.

Modelling choices:

- Parameters stand in for:
  - the code-set registry (`Registry`, a map from set name to code set);
  - the definitions catalog (`Catalog`);
  - parsed dates: a timestamp in minutes, or "blank" / "did not parse".
- Where the source's documentation and its code differ, the model follows the code:
  - Except in PSI-15's numerator, only `N`, `U`, `W` or a missing flag counts as "not
    present on admission"; any other flag is neither POA nor not-POA there.
  - "Principal" means an entry equal in value to the first entry, as the code compares
    dictionaries.
  - PSI-03's pressure-ulcer numerator compares diagnosis codes with code-set *names*.
    This is kept, and a lemma states its consequence.
  - PSI-07's POA=Y line-infection reason reports the last diagnosis code scanned, as
    the code's stale loop variable does.
  - PSI-15's numerator counts an injury whose flag is anything but `Y` (`E` or `1`, say),
    not only one flagged `N`, `U`, `W` or blank, although its documentation asks for
    "not POA".
  - A missing DRG reads as the text `nan`.

## Model

| member | source | states |
|---|---|---|
| Scans.FirstSomeNone | PSI_02_19_Gemini_v2_Fixed.py:640-646 | an early-return scan yields nothing exactly when every entry from the start index on is passed over |
| Scans.FirstSomeWitness | PSI_02_19_Gemini_v2_Fixed.py:640-646 | a scan's result comes from some entry, and every entry before it was passed over |
| Scans.FirstSomeAt | PSI_02_19_Gemini_v2_Fixed.py:640-646 | the first entry whose check yields a value decides the scan |
| ColumnNames.NumeralRoundTrip | PSI_02_19_Gemini_v2_Fixed.py:207-208 | printing a positive slot number gives a positive numeral without leading zeros that reads back as the number |
| ColumnNames.PositiveNumeralValue | PSI_02_19_Gemini_v2_Fixed.py:207-208 | a positive numeral denotes a number of at least one |
| ColumnNames.NumeralTextOfValue | PSI_02_19_Gemini_v2_Fixed.py:207-208 | a positive numeral is what printing its value gives |
| ColumnNames.SlotNameRoundTrip | PSI_02_19_Gemini_v2_Fixed.py:207-208 | the column name built from a prefix, a slot number and a suffix reads back as that slot number |
| ColumnNames.SlotNumberNamesSlot | PSI_02_19_Gemini_v2_Fixed.py:207-208 | a name that reads as a slot number is the name built from that number, which is at least one |
| ColumnNames.ParseColumnName | PSI_02_19_Gemini_v2_Fixed.py:207-225 | the name of a `DX<n>`, `POA<n>`, `Proc<n>` or `Proc<n>_Date` column reads back as that column |
| ColumnNames.ParsedColumnIsNamed | PSI_02_19_Gemini_v2_Fixed.py:207-225 | a name that reads as a numbered column is exactly that column's name |
| Encounter.DiagnosesUpToMembers | PSI_02_19_Gemini_v2_Fixed.py:191-218 | the diagnoses taken from the first k slots are exactly the filled slots, each with the POA column after it, and there are at most k of them |
| Encounter.PrincipalComesFirst | PSI_02_19_Gemini_v2_Fixed.py:198-202 | a present `Pdx` is the first extracted diagnosis, paired with `POA1` |
| Encounter.DiagnosesUpToInSlotOrder | PSI_02_19_Gemini_v2_Fixed.py:191-218 | entry i of the diagnoses from the first k slots is built from the i-th filled slot (its code and the next `POA` column); the filled slots strictly increase, and every filled slot below k is one of them |
| Encounter.AllDiagnosesCharacterized | PSI_02_19_Gemini_v2_Fixed.py:191-218 | the full diagnosis list has at most 26 entries, lists exactly the filled `Pdx`/`DX<i>` slots with `POA<i+1>`, puts the principal first, and holds one entry per filled slot in increasing slot order |
| Encounter.ProceduresUpToMembers | PSI_02_19_Gemini_v2_Fixed.py:220-229 | the procedures taken from the first k slots are exactly the filled slots, each with its resolved date |
| Encounter.ProceduresUpToInSlotOrder | PSI_02_19_Gemini_v2_Fixed.py:220-229 | entry i of the procedures from the first k slots is the code and resolved date of the i-th filled slot; the filled slots strictly increase, and every filled slot below k is one of them |
| Encounter.AllProceduresCharacterized | PSI_02_19_Gemini_v2_Fixed.py:220-229 | the full procedure list has at most 10 entries, lists exactly the filled `Proc<i>` slots with their parsed dates, and holds one entry per filled slot in increasing slot order |
| Encounter.HasSlotColumns | PSI_02_19_Gemini_v2_Fixed.py:458-460 | the presence check reads `DX<n>`, `POA<n>`, `Proc<n>` and `Proc<n>_Date` from the same slot sequences the extraction reads |
| Dates.DaysBetween | PSI_02_19_Gemini_v2_Fixed.py:231-238 | the day difference is missing exactly when either date is, and otherwise is the floor of the elapsed time in days |
| Dates.EarliestMatchIsMinimum | PSI_02_19_Gemini_v2_Fixed.py:240-255 | the earliest-date scan yields the minimum resolved date of a matching procedure, and nothing exactly when no matching procedure is dated |
| Dates.LatestMatchIsMaximum | PSI_02_19_Gemini_v2_Fixed.py:257-272 | the latest-date scan yields the maximum resolved date of a matching procedure, and nothing exactly when none is dated |
| Dates.FirstProcedureDateCharacterized | PSI_02_19_Gemini_v2_Fixed.py:240-255 | the first date from a named set is unresolvable exactly when the set is unknown or empty or has no dated procedure; otherwise it is the minimum |
| Dates.LatestProcedureDateCharacterized | PSI_02_19_Gemini_v2_Fixed.py:257-272 | the same for the latest date, which is the maximum |
| Definitions.AddFieldProperties | PSI_02_19_Gemini_v2_Fixed.py:441-443 | appending a field unless listed keeps the list duplicate-free, keeps its prefix, and adds exactly that field |
| Definitions.AddFieldsProperties | PSI_02_19_Gemini_v2_Fixed.py:437-443 | adding several fields keeps the list duplicate-free and its prefix, and its members are the old ones and the new ones |
| Definitions.AddFieldsAppend | PSI_02_19_Gemini_v2_Fixed.py:437-443 | adding two lists in turn is adding their concatenation, so the loop's steps compose |
| Definitions.CoreHasNoDuplicates | PSI_02_19_Gemini_v2_Fixed.py:434 | the seven core required fields are distinct |
| Definitions.RequiredFieldsMembership | PSI_02_19_Gemini_v2_Fixed.py:431-453 | a field is required exactly when it is core, a data-quality field, a date the timing rule needs, or the stay the minimum-stay rule needs |
| Definitions.RequiredFieldsShape | PSI_02_19_Gemini_v2_Fixed.py:431-453 | the required list has no duplicates and starts with the core seven in their order |
| BaseExclusions.BaseExclusion | PSI_02_19_Gemini_v2_Fixed.py:415-527 | a base verdict is always an exclusion, and there is none exactly when no base rule applies |
| BaseExclusions.BaseExclusionPasses | PSI_02_19_Gemini_v2_Fixed.py:415-527 | an encounter passes exactly when every required field is present, the age clears the population floor, no newborn or obstetric rule applies, and the DRG is not 999 |
| BaseExclusions.MissingFieldReported | PSI_02_19_Gemini_v2_Fixed.py:455-457 | a missing required field causes an exclusion naming the first missing field in the required order |
| BaseExclusions.NewbornIndicatorKeepsNewborns | PSI_02_19_Gemini_v2_Fixed.py:460-503 | a newborn-only indicator never excludes for age or for being a newborn discharge |
| BaseExclusions.ObstetricIndicatorKeepsObstetric | PSI_02_19_Gemini_v2_Fixed.py:505-518 | a maternal-obstetric indicator never excludes an obstetric discharge as such |
| BaseExclusions.AdultUnder18Excluded | PSI_02_19_Gemini_v2_Fixed.py:455-467 | for an adult indicator, a complete row under 18 is excluded for age |
| BaseExclusions.ObstetricAnyAgeAllowance | PSI_02_19_Gemini_v2_Fixed.py:455-488 | for the surgical, obstetric and mixed populations, a complete row under 18 escapes the age floor exactly when it is an MDC 14 obstetric discharge and the definition admits obstetric patients of any age |
| Assigners.OrganSystemOfCharacterized | PSI_02_19_Gemini_v2_Fixed.py:324-332 | the organ lookup finds a system exactly when some system's set holds the code, and finds the first such system in the fixed order |
| Assigners.InjuryCodeHasOrganSystem | PSI_02_19_Gemini_v2_Fixed.py:79-93 | a diagnosis code has an organ system exactly when it is in the consolidated injury union that `__init__` builds |
| Assigners.Psi13RiskMonotone | PSI_02_19_Gemini_v2_Fixed.py:334-368 | recording one more diagnosis or procedure never lowers the PSI-13 immune-risk category |
| Assigners.ProceduresOnDayMembers | PSI_02_19_Gemini_v2_Fixed.py:370-397 | the procedures on a calendar day are exactly the dated ones falling on it |
| Assigners.Psi15RiskCharacterized | PSI_02_19_Gemini_v2_Fixed.py:370-397 | high complexity exactly when a `PCLASSHIGH` procedure falls on the index day; moderate exactly when none does but a `PCLASSMODERATE` one does; low without an index date |
| Assigners.AssignedStratumIsHighestQualifying | PSI_02_19_Gemini_v2_Fixed.py:826-832 | the PSI-04 stratum assigned is one the case qualifies for with every higher-priority stratum failing, and none is assigned exactly when none qualifies |
| Assigners.AssignedStratumHasComplication | PSI_02_19_Gemini_v2_Fixed.py:685-757 | an assigned stratum always rests on a secondary complication not present on admission, or on shock with a post-operative `FTR5PR` procedure |
| AbdominopelvicIndicators.InitialSurgery | PSI_02_19_Gemini_v2_Fixed.py:1553-1560 | the initial abdominopelvic date is the earlier of the open and other first dates, missing exactly when both are |
| MortalityIndicators.Psi02Counts | PSI_02_19_Gemini_v2_Fixed.py:561-608 | PSI-02 admits exactly the low-mortality-DRG deaths without trauma, cancer, immunocompromise or a hospice admission |
| MortalityIndicators.Psi04Counts | PSI_02_19_Gemini_v2_Fixed.py:759-839 | a PSI-04 case counts exactly when it has diagnoses and a surgical DRG, is aged 18-89 or obstetric, has an OR procedure that is elective or within two days of admission, is a death (disposition 20), is not from hospice, is not an MDC 15 newborn, and is assigned a stratum; a counted case's reason names that stratum, which is the first stratum in priority order that the case qualifies for |
| HospitalAcquiredIndicators.Psi03Counts | PSI_02_19_Gemini_v2_Fixed.py:610-683 | PSI-03 admits a case exactly when every denominator condition holds and some ulcer entry qualifies |
| HospitalAcquiredIndicators.Psi03UlcerIsHospitalAcquired | PSI_02_19_Gemini_v2_Fixed.py:648-677 | a counted ulcer's POA flag is N, U, W or blank, and a specific-site ulcer counts only without a POA=Y deep tissue injury of the same site |
| HospitalAcquiredIndicators.Psi03NeedsCodeEqualToSetName | PSI_02_19_Gemini_v2_Fixed.py:657-662 | as written, a case counts only if one of its diagnosis codes is literally a pressure-ulcer set name |
| HospitalAcquiredIndicators.Psi05Counts | PSI_02_19_Gemini_v2_Fixed.py:841-879 | PSI-05 admits exactly the surgical or medical cases with a secondary retained item not present on admission and none principal or POA=Y |
| HospitalAcquiredIndicators.Psi06Counts | PSI_02_19_Gemini_v2_Fixed.py:881-943 | PSI-06 admits exactly the cases with a secondary iatrogenic pneumothorax not present on admission and no exclusion |
| HospitalAcquiredIndicators.Psi06CopyOfPrincipalExcludes | PSI_02_19_Gemini_v2_Fixed.py:904-912 | a secondary pneumothorax entry equal in value to the principal excludes the case, whatever its own flag |
| HospitalAcquiredIndicators.Psi07Counts | PSI_02_19_Gemini_v2_Fixed.py:945-1008 | PSI-07 admits exactly the cases with a secondary line infection not present on admission and no exclusion |
| HospitalAcquiredIndicators.FractureCodesMembers | PSI_02_19_Gemini_v2_Fixed.py:1052-1057 | the collected fracture codes are exactly those of entries with a fracture not present on admission |
| HospitalAcquiredIndicators.SecondaryFractures | PSI_02_19_Gemini_v2_Fixed.py:1052-1068 | the secondary fractures collected are non-empty exactly when one is not POA, and hold a hip fracture exactly when such a fracture is one |
| HospitalAcquiredIndicators.Psi08Counts | PSI_02_19_Gemini_v2_Fixed.py:1011-1073 | PSI-08 admits exactly the denominator cases with a non-POA secondary fracture, and reports hip exactly when one of them is a hip fracture |
| PostoperativeIndicators.Psi09Counts | PSI_02_19_Gemini_v2_Fixed.py:1075-1139 | PSI-09 admits exactly the surgical cases with a non-POA secondary hemorrhage treated on a later day than the first OR procedure, with no exclusion |
| PostoperativeIndicators.Psi09TreatmentFollowsSurgery | PSI_02_19_Gemini_v2_Fixed.py:1126-1137 | a counted hemorrhage has a treatment dated at least one day after the first OR procedure |
| PostoperativeIndicators.Psi10Counts | PSI_02_19_Gemini_v2_Fixed.py:1141-1233 | PSI-10 admits exactly the elective surgical cases with non-POA acute kidney failure and later dialysis, with no exclusion |
| PostoperativeIndicators.OrCodesMembers | PSI_02_19_Gemini_v2_Fixed.py:1306 | the OR codes the comprehension collects are exactly the OR-set codes among the procedures, at most one per procedure |
| PostoperativeIndicators.Psi11Counts | PSI_02_19_Gemini_v2_Fixed.py:1235-1356 | PSI-11 admits exactly the elective surgical cases with a post-operative respiratory complication and no exclusion |
| PostoperativeIndicators.Psi12Counts | PSI_02_19_Gemini_v2_Fixed.py:1358-1447 | PSI-12 admits exactly the surgical cases with a non-POA secondary DVT or PE and no exclusion |
| PostoperativeIndicators.Psi13Counts | PSI_02_19_Gemini_v2_Fixed.py:1449-1519 | PSI-13 admits exactly the elective surgical cases with non-POA secondary sepsis and no exclusion, and reports the risk category |
| AbdominopelvicIndicators.Psi14ScreenExcludes | PSI_02_19_Gemini_v2_Fixed.py:1521-1588 | whatever the PSI-14 screen stops at is an exclusion |
| AbdominopelvicIndicators.Psi14ReclosureFollowsSurgery | PSI_02_19_Gemini_v2_Fixed.py:1571-1607 | a counted PSI-14 case has a dated reclosure after the initial surgery, a non-POA secondary dehiscence, a stay of at least 2 days and a known stratum |
| AbdominopelvicIndicators.Psi14AsWrittenCountsUndatedReclosure | PSI_02_19_Gemini_v2_Fixed.py:1571-1607 | as written, an undated reclosure alone completes the numerator, which the corrected rule rejects |
| AbdominopelvicIndicators.Psi14AgreesWhenReclosuresDated | PSI_02_19_Gemini_v2_Fixed.py:1571-1607 | with every reclosure dated, the code as written and the corrected rule agree |
| AbdominopelvicIndicators.Psi15Counts | PSI_02_19_Gemini_v2_Fixed.py:1609-1685 | PSI-15 admits exactly the cases whose first secondary injury with a same-organ repair 1 to 30 days after the index procedure is not POA=Y, and reports the complexity |
| AbdominopelvicIndicators.Psi15InjuryOnAdmissionExcludes | PSI_02_19_Gemini_v2_Fixed.py:1662-1670 | a POA=Y injury that is the first with a repair in the window excludes the case |
| AbdominopelvicIndicators.Psi15CountsOnlyHospitalInjuries | PSI_02_19_Gemini_v2_Fixed.py:1649-1680 | a counted case has a secondary injury from the consolidated union that is not POA=Y |
| PerinatalIndicators.Psi17Counts | PSI_02_19_Gemini_v2_Fixed.py:1687-1728 | PSI-17 admits exactly the newborns without a preterm or osteogenesis exclusion who have a birth injury |
| PerinatalIndicators.Psi18Psi19Partition | PSI_02_19_Gemini_v2_Fixed.py:1730-1808 | PSI-18 and PSI-19 admit vaginal deliveries with obstetric trauma with and without an instrument, never both, and one of them whenever delivery and trauma are present |
| Dispatch.Indicator.Number | PSI_02_19_Gemini_v2_Fixed.py:561-1770 | every indicator has a two-digit number |
| Dispatch.Position | PSI_02_19_Gemini_v2_Fixed.py:561-1770 | every indicator is listed among the evaluators |
| Dispatch.NumbersDistinct | PSI_02_19_Gemini_v2_Fixed.py:561-1770 | indicators with the same number are the same indicator |
| Dispatch.IdsDistinct | PSI_02_19_Gemini_v2_Fixed.py:428 | registry ids tell the indicators apart |
| Dispatch.MethodNamesDistinct | PSI_02_19_Gemini_v2_Fixed.py:561-1770 | evaluator method names tell the indicators apart |
| Dispatch.AsciiLower | PSI_02_19_Gemini_v2_Fixed.py:548 | lower-casing keeps the length and lowers each letter |
| Dispatch.CodePsiFindsOrchestrator | PSI_02_19_Gemini_v2_Fixed.py:548-550 | the code `PSI`, in any letter case, finds the orchestrator method `evaluate_psi` itself |
| Dispatch.RegistryIdsFindNoEvaluator | PSI_02_19_Gemini_v2_Fixed.py:548-549 | no registry id such as `PSI_02` finds an evaluator by the name the orchestrator builds |
| Dispatch.LowerUnderscoreFreeId | PSI_02_19_Gemini_v2_Fixed.py:548 | lower-casing `PSI` and two digits gives `psi` and the same digits |
| Dispatch.MethodNameFindsEvaluator | PSI_02_19_Gemini_v2_Fixed.py:549-550 | the name lookup finds the indicator whose method has that name |
| Dispatch.UnderscoreFreeIdFindsEvaluator | PSI_02_19_Gemini_v2_Fixed.py:548-550 | the spelling without an underscore, such as `PSI02`, finds that indicator's evaluator method |
| Dispatch.RegistryIdFindsEvaluator | PSI_02_19_Gemini_v2_Fixed.py:548-550 | the corrected lookup finds every indicator by its registry id |
| Dispatch.UnknownIdFindsNoEvaluator | PSI_02_19_Gemini_v2_Fixed.py:558-559 | an id that belongs to no indicator finds no evaluator |
| Dispatch.Orchestrate | PSI_02_19_Gemini_v2_Fixed.py:529-559 | the result always names the requested indicator and carries no details |
| Dispatch.BaseExclusionDecides | PSI_02_19_Gemini_v2_Fixed.py:541-545 | a base exclusion decides the result whatever the evaluator would do |
| Dispatch.OrchestrateOutcomes | PSI_02_19_Gemini_v2_Fixed.py:549-559 | with no evaluator the result is "Not Implemented"; a raising one gives "Error" with the message; a returned verdict is passed on |
| Dispatch.AsWrittenNeverEvaluates | PSI_02_19_Gemini_v2_Fixed.py:529-559 | as written, an encounter that passes the base check is "Not Implemented" for every registry indicator; otherwise it gets the base exclusion |
| Dispatch.AsWrittenUnderscoreFreeIdEvaluates | PSI_02_19_Gemini_v2_Fixed.py:548-553 | as written, a code such as `PSI14` that passes the base check gets the as-written evaluator's verdict, so PSI-14 counts undated reclosures |
| Dispatch.CodePsiIsError | PSI_02_19_Gemini_v2_Fixed.py:548-557 | as written, the code `PSI` makes the orchestrator call itself with the code-set dictionary as the indicator code; the definition lookup at line 428 raises, so a case that passes the base check is "Error" with the message `unhashable type: 'dict'`, and otherwise it gets the base exclusion |
| Dispatch.EvaluatePsiRunsIndicator | PSI_02_19_Gemini_v2_Fixed.py:529-559 | with the corrected lookup, the base exclusion comes first and otherwise the indicator's own verdict is the result |
| Dispatch.UnknownIdNotImplemented | PSI_02_19_Gemini_v2_Fixed.py:558-559 | an unknown id that passes the base check is "Not Implemented", with the not-found reason |
| Calculator.ScanFirst | PSI_02_19_Gemini_v2_Fixed.py:640-646 | the loop with an early return yields what the early-return scan specifies |
| Calculator.PsiCalculator.constructor | PSI_02_19_Gemini_v2_Fixed.py:26-103 | the calculator holds the given registry and catalog, plus the two code unions `__init__` builds from the registry |
| Calculator.PsiCalculator.GetAllDiagnoses | PSI_02_19_Gemini_v2_Fixed.py:191-218 | the extraction loop builds the specified diagnosis list |
| Calculator.PsiCalculator.GetAllProcedures | PSI_02_19_Gemini_v2_Fixed.py:220-229 | the extraction loop builds the specified procedure list |
| Calculator.PsiCalculator.FirstProcedureDateByCodeSet | PSI_02_19_Gemini_v2_Fixed.py:240-255 | the running-minimum loop yields the first date from the named set |
| Calculator.PsiCalculator.LatestProcedureDateByCodeSet | PSI_02_19_Gemini_v2_Fixed.py:257-272 | the running-maximum loop yields the latest date from the named set |
| Calculator.PsiCalculator.CheckProcedureTiming | PSI_02_19_Gemini_v2_Fixed.py:274-322 | the flag loop is true exactly when a dated procedure from the set lies in the day window from the reference date |
| Calculator.PsiCalculator.AddMissingNames | PSI_02_19_Gemini_v2_Fixed.py:441-443 | the innermost loop appends exactly the not-yet-listed names, in order |
| Calculator.PsiCalculator.AddRuleFields | PSI_02_19_Gemini_v2_Fixed.py:439-443 | the rule loop adds the field names of every rule that lists missing required fields |
| Calculator.PsiCalculator.RequiredFieldsFor | PSI_02_19_Gemini_v2_Fixed.py:431-453 | the list grown in place is the specified required-field list |
| Calculator.PsiCalculator.CheckBaseExclusions | PSI_02_19_Gemini_v2_Fixed.py:415-527 | the base check returns the specified base verdict |
| Calculator.PsiCalculator.CheckPsi04StratumCriteria | PSI_02_19_Gemini_v2_Fixed.py:685-757 | the stratum check is true exactly when the case meets the stratum's inclusion and no exclusion text removes it |
| Calculator.PsiCalculator.EvaluatePsi02 | PSI_02_19_Gemini_v2_Fixed.py:561-608 | the PSI-02 evaluator returns the PSI-02 verdict |
| Calculator.PsiCalculator.HasQualifyingPressureUlcer | PSI_02_19_Gemini_v2_Fixed.py:648-677 | the nested flag loops find a qualifying ulcer exactly as specified |
| Calculator.PsiCalculator.EvaluatePsi03 | PSI_02_19_Gemini_v2_Fixed.py:610-683 | the PSI-03 evaluator returns the PSI-03 verdict |
| Calculator.PsiCalculator.EvaluatePsi04 | PSI_02_19_Gemini_v2_Fixed.py:759-839 | the PSI-04 evaluator, with its stratum loop, returns the PSI-04 verdict |
| Calculator.PsiCalculator.EvaluatePsi05 | PSI_02_19_Gemini_v2_Fixed.py:841-879 | the PSI-05 evaluator returns the PSI-05 verdict |
| Calculator.PsiCalculator.EvaluatePsi06 | PSI_02_19_Gemini_v2_Fixed.py:881-943 | the PSI-06 evaluator returns the PSI-06 verdict |
| Calculator.PsiCalculator.EvaluatePsi07 | PSI_02_19_Gemini_v2_Fixed.py:945-1008 | the PSI-07 evaluator returns the PSI-07 verdict |
| Calculator.PsiCalculator.SecondaryFracturesNotOnAdmission | PSI_02_19_Gemini_v2_Fixed.py:1052-1057 | the collecting loop gathers the non-POA secondary fracture codes in order |
| Calculator.PsiCalculator.EvaluatePsi08 | PSI_02_19_Gemini_v2_Fixed.py:1011-1073 | the PSI-08 evaluator returns the PSI-08 verdict |
| Calculator.PsiCalculator.EvaluatePsi09 | PSI_02_19_Gemini_v2_Fixed.py:1075-1139 | the PSI-09 evaluator returns the PSI-09 verdict |
| Calculator.PsiCalculator.EvaluatePsi10 | PSI_02_19_Gemini_v2_Fixed.py:1141-1233 | the PSI-10 evaluator returns the PSI-10 verdict |
| Calculator.PsiCalculator.EvaluatePsi11 | PSI_02_19_Gemini_v2_Fixed.py:1235-1356 | the PSI-11 evaluator returns the PSI-11 verdict |
| Calculator.PsiCalculator.EvaluatePsi12 | PSI_02_19_Gemini_v2_Fixed.py:1358-1447 | the PSI-12 evaluator returns the PSI-12 verdict |
| Calculator.PsiCalculator.EvaluatePsi13 | PSI_02_19_Gemini_v2_Fixed.py:1449-1519 | the PSI-13 evaluator returns the PSI-13 verdict |
| Calculator.PsiCalculator.ScreenPsi14 | PSI_02_19_Gemini_v2_Fixed.py:1537-1586 | the PSI-14 steps before the numerator return the specified screen verdict, and when they pass they hand on the specified latest reclosure date |
| Calculator.PsiCalculator.EvaluatePsi14AsWritten | PSI_02_19_Gemini_v2_Fixed.py:1521-1607 | the PSI-14 evaluator as written returns the as-written PSI-14 verdict, which counts any `RECLOIP` procedure |
| Calculator.PsiCalculator.EvaluatePsi14 | PSI_02_19_Gemini_v2_Fixed.py:1521-1607 | with the numerator corrected to a dated reclosure, the PSI-14 evaluator returns the corrected PSI-14 verdict |
| Calculator.PsiCalculator.EvaluatePsi15 | PSI_02_19_Gemini_v2_Fixed.py:1609-1685 | the PSI-15 evaluator's flag loop returns the PSI-15 verdict |
| Calculator.PsiCalculator.EvaluatePsi17 | PSI_02_19_Gemini_v2_Fixed.py:1687-1728 | the PSI-17 evaluator returns the PSI-17 verdict |
| Calculator.PsiCalculator.EvaluatePsi18 | PSI_02_19_Gemini_v2_Fixed.py:1730-1768 | the PSI-18 evaluator returns the PSI-18 verdict |
| Calculator.PsiCalculator.EvaluatePsi19 | PSI_02_19_Gemini_v2_Fixed.py:1770-1808 | the PSI-19 evaluator returns the PSI-19 verdict |
| Calculator.PsiCalculator.RunIndicator | PSI_02_19_Gemini_v2_Fixed.py:549-553 | running an indicator's evaluator gives that indicator's verdict |
| Calculator.PsiCalculator.RunIndicatorAsWritten | PSI_02_19_Gemini_v2_Fixed.py:549-553 | running an indicator's evaluator as written gives the as-written verdict |
| Calculator.PsiCalculator.EvaluatePsiAsWritten | PSI_02_19_Gemini_v2_Fixed.py:529-559 | the orchestrator as written returns the as-written orchestration result |
| Calculator.PsiCalculator.EvaluatePsi | PSI_02_19_Gemini_v2_Fixed.py:529-559 | the orchestrator returns the corrected orchestration result |

## Left out

- Loading the code-set registry and the definitions catalog from JSON files (`_load_code_sets`, `_load_psi_definitions`) is file I/O. Both are parameters of the constructor.
- Date parsing itself (`strptime` inside `_parse_date_string`) is not modelled. A date column is a parsed timestamp, blank, or "did not parse". The text preparation before parsing is not modelled either: the `str(int(...))` of a numeric time, the `strip` and the four-digit `zfill`.
- The `__main__` driver, the Streamlit front ends, logging, warnings and traceback printing are user interface and I/O.
- The separate `appendix` argument of each evaluator is left out. The orchestrator always passes the calculator's own registry, and the evaluators here read that registry.
- Exceptions raised inside an evaluator are left out. They appear only as the abstract `Raised` outcome of `Dispatch.Orchestrate`, and the modelled evaluators always return.
- The one modelled exception is the self-call of the orchestrator for the code `PSI`. Its message is the text Python gives for an unhashable dictionary key (`Dispatch.UnhashableDict`). The second base check that the self-call starts is abstracted to that raise.
- Columns other than the dates and the numbered `DX`, `POA`, `Proc` and `Proc_Date` columns are a set of present column names, for example `Birth_Weight` or `Proc<k>_Time`. Their presence is not tied to any value the evaluators read. A procedure's time column is folded into its date.
- Type checks on cell values and the `ValueError` paths of numeric conversion are left out. One example is the "Invalid MDC value" reason. Ages, MDCs, stays and dispositions are read as already-converted integers, or as missing.
- `Dispatch.AsciiLower`: does not model Unicode case mapping beyond ASCII, because every indicator id is ASCII.
- A present cell's text is taken as it is. `str()` of a non-text cell, such as a number, is not modelled.

## Findings

| source | as written | input that shows it | evidently intended | confidence | as-written member | corrected member |
|---|---|---|---|---|---|---|
| PSI_02_19_Gemini_v2_Fixed.py:548-549 | the evaluator is looked up as `evaluate_` plus the lower-cased id, which gives `evaluate_psi_02` for `PSI_02`, but no such method exists | any encounter that passes the base check, evaluated for `PSI_02` (or any other registry id): the result is "Not Implemented" | look up the evaluator of the indicator whose registry id is given (`evaluate_psi02` for `PSI_02`) | not executed | Dispatch.AsWrittenNeverEvaluates | Dispatch.EvaluatePsiRunsIndicator |
| PSI_02_19_Gemini_v2_Fixed.py:1571-1602 | the numerator accepts any `RECLOIP` procedure, including one without a resolved date, which the timing exclusion skips | an encounter passing the PSI-14 screen with a non-POA secondary `ABWALLCD` diagnosis and a `RECLOIP` procedure whose date is blank: it counts | a reclosure counts only when it is dated after the initial abdominopelvic surgery, as the comment at line 1602 assumes | not executed | AbdominopelvicIndicators.Psi14AsWrittenCountsUndatedReclosure | AbdominopelvicIndicators.Psi14ReclosureFollowsSurgery |
