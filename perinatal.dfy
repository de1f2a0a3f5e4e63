/**
 * The perinatal indicators: PSI-17 birth trauma to the neonate, and the obstetric
 * trauma of vaginal deliveries with (PSI-18) and without (PSI-19) an instrument.
 */
module PerinatalIndicators {
  import opened Wrappers
  import opened Scans
  import opened CodeSets
  import opened Encounter
  import opened Verdicts
  import opened Criteria

  // ---------------------------------------------------------------- PSI-17

  const Psi17NotNewborn := "Denominator Exclusion: Not a newborn discharge (Principal DX not in NEWBORN codes)"
  const Psi17Preterm := "Denominator Exclusion: Preterm infant with birth weight < 2000g ("
  const Psi17Osteogenesis := "Denominator Exclusion: Osteogenesis imperfecta diagnosis present ("
  const Psi17Trauma := "Inclusion: Birth trauma injury to neonate"
  const Psi17NoTrauma := "Exclusion: No qualifying birth trauma injury found"

  function Psi17DxRule(cs: Registry): DxEntry -> Option<Verdict>
  {
    (d: DxEntry) =>
      if d.code in Lookup(cs, "PRETEID") then Some(Exclude(Psi17Preterm + d.code + ")"))
      else if d.code in Lookup(cs, "OSTEOID") then Some(Exclude(Psi17Osteogenesis + d.code + ")"))
      else None
  }

  function Psi17(cs: Registry, row: Row): Verdict
  {
    var dxs := AllDiagnoses(row);
    var dxHit := FirstSome(dxs, Psi17DxRule(cs), 0);
    if dxs == [] then NoDiagnoses
    else if !PrincipalIn(dxs, Lookup(cs, "NEWBORN")) then Exclude(Psi17NotNewborn)
    else if dxHit.Some? then dxHit.value
    else if AnyDxIn(dxs, Lookup(cs, "BIRTHID")) then Include(Psi17Trauma)
    else Exclude(Psi17NoTrauma)
  }

  /**
   * PSI-17 counts a case exactly when its principal diagnosis is a newborn code, no
   * diagnosis is preterm under 2000 g or osteogenesis imperfecta, and some diagnosis,
   * in any position and whatever its flag, is a birth injury.
   */
  lemma Psi17Counts(cs: Registry, row: Row)
    ensures var dxs := AllDiagnoses(row);
            Psi17(cs, row).status == Inclusion <==>
              && PrincipalIn(dxs, Lookup(cs, "NEWBORN"))
              && !AnyDxIn(dxs, Lookup(cs, "PRETEID") + Lookup(cs, "OSTEOID"))
              && AnyDxIn(dxs, Lookup(cs, "BIRTHID"))
  {
    var dxs := AllDiagnoses(row);
    FirstSomeNone(dxs, Psi17DxRule(cs), 0);
    if FirstSome(dxs, Psi17DxRule(cs), 0).Some? {
      FirstSomeWitness(dxs, Psi17DxRule(cs), 0);
    }
  }

  // ---------------------------------------------------------------- PSI-18 and PSI-19

  const NoDeliveryOutcome := "Denominator Exclusion: No delivery outcome diagnosis found"
  const NoVaginalDelivery := "Denominator Exclusion: No vaginal delivery procedure found"
  const Psi18NoInstrument := "Denominator Exclusion: No instrument-assisted delivery procedure found"
  const Psi18Trauma := "Inclusion: Obstetric trauma (third or fourth degree) with instrument-assisted vaginal delivery"
  const Psi18NoTrauma := "Exclusion: No qualifying obstetric trauma found for instrument-assisted vaginal delivery"
  const Psi19Instrument := "Denominator Exclusion: Instrument-assisted delivery procedure found (PSI_19 excludes these)"
  const Psi19Trauma := "Inclusion: Obstetric trauma (third or fourth degree) with spontaneous vaginal delivery"
  const Psi19NoTrauma := "Exclusion: No qualifying obstetric trauma found for spontaneous vaginal delivery"

  function Psi18(cs: Registry, row: Row): Verdict
  {
    var dxs := AllDiagnoses(row);
    var ps := AllProcedures(row);
    if dxs == [] then NoDiagnoses
    else if !AnyDxIn(dxs, Lookup(cs, "DELOCMD")) then Exclude(NoDeliveryOutcome)
    else if !AnyProcIn(ps, Lookup(cs, "VAGDELP")) then Exclude(NoVaginalDelivery)
    else if !AnyProcIn(ps, Lookup(cs, "INSTRIP")) then Exclude(Psi18NoInstrument)
    else if AnyDxIn(dxs, Lookup(cs, "OBTRAID")) then Include(Psi18Trauma)
    else Exclude(Psi18NoTrauma)
  }

  function Psi19(cs: Registry, row: Row): Verdict
  {
    var dxs := AllDiagnoses(row);
    var ps := AllProcedures(row);
    if dxs == [] then NoDiagnoses
    else if !AnyDxIn(dxs, Lookup(cs, "DELOCMD")) then Exclude(NoDeliveryOutcome)
    else if !AnyProcIn(ps, Lookup(cs, "VAGDELP")) then Exclude(NoVaginalDelivery)
    else if AnyProcIn(ps, Lookup(cs, "INSTRIP")) then Exclude(Psi19Instrument)
    else if AnyDxIn(dxs, Lookup(cs, "OBTRAID")) then Include(Psi19Trauma)
    else Exclude(Psi19NoTrauma)
  }

  /**
   * PSI-18 counts a delivery with an outcome diagnosis, a vaginal delivery procedure, an
   * instrument and an obstetric injury; PSI-19 counts the same without an instrument.
   * An encounter therefore counts for at most one of them, and with the first three
   * conditions and an injury it counts for exactly one.
   */
  lemma Psi18Psi19Partition(cs: Registry, row: Row)
    ensures var dxs, ps := AllDiagnoses(row), AllProcedures(row);
            var delivered := AnyDxIn(dxs, Lookup(cs, "DELOCMD")) && AnyProcIn(ps, Lookup(cs, "VAGDELP"));
            var injured := AnyDxIn(dxs, Lookup(cs, "OBTRAID"));
            && (Psi18(cs, row).status == Inclusion <==> delivered && AnyProcIn(ps, Lookup(cs, "INSTRIP")) && injured)
            && (Psi19(cs, row).status == Inclusion <==> delivered && !AnyProcIn(ps, Lookup(cs, "INSTRIP")) && injured)
            && !(Psi18(cs, row).status == Inclusion && Psi19(cs, row).status == Inclusion)
            && (delivered && injured ==> Psi18(cs, row).status == Inclusion || Psi19(cs, row).status == Inclusion)
  {
    var dxs := AllDiagnoses(row);
    if AnyDxIn(dxs, Lookup(cs, "DELOCMD")) {
      assert dxs != [];
    }
  }
}
