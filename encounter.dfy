/**
 * One encounter row and the views the calculator extracts from it: the ordered
 * diagnosis list (principal first, each with its present-on-admission flag) and
 * the ordered procedure list (each with its resolved timestamp).
 */
module Encounter {
  import opened Wrappers
  import opened ColumnNames

  /**
   * A date column (with its time column folded in): `Blank` when the cell is
   * missing, otherwise what parsing it produced, where `None` is `NaT` (the text did
   * not parse). Timestamps are minutes since an epoch that falls at midnight.
   */
  datatype DateValue = Blank | Written(parsed: Option<int>)
  {
    function Resolve(): Option<int>
    {
      match this
      case Blank => None
      case Written(p) => p
    }
  }

  /** One `Proc<i>` slot with its `Proc<i>_Date`/`Proc<i>_Time`. */
  datatype ProcSlot = ProcSlot(code: Option<string>, date: DateValue)

  /**
   * One encounter row. `dx[i-1]` is column `DX<i>`, `poa[n-1]` is column `POA<n>` and
   * `procs[k-1]` is `Proc<k>`; a slot beyond the end of a sequence reads as missing.
   * `otherFields` names the further columns that hold a value (such as `Birth_Weight` or
   * `Proc<k>_Time`); the columns the other components stand for are never read from it.
   */
  datatype Row = Row(
    encounterId: Option<string>,
    age: Option<int>,
    sex: Option<string>,
    drg: Option<string>,
    mdc: Option<int>,
    pdx: Option<string>,
    dx: seq<Option<string>>,
    poa: seq<Option<string>>,
    procs: seq<ProcSlot>,
    admissionDate: DateValue,
    dischargeDate: DateValue,
    lengthOfStay: Option<int>,
    admissionType: Option<int>,
    disposition: Option<int>,
    pointOfOrigin: Option<string>,
    otherFields: set<string>)

  /** Whether the numbered column holds a value: slot `n` of the matching sequence does. */
  predicate SlotHasValue(row: Row, c: SlotColumn)
  {
    match c
    case DxColumn(n) => DxAt(row, n).Some?
    case PoaColumn(n) => PoaAt(row, n).Some?
    case ProcColumn(n) => n >= 1 && ProcAt(row, n - 1).code.Some?
    case ProcDateColumn(n) => n >= 1 && ProcAt(row, n - 1).date.Written?
  }

  /** Whether the row holds a (non-missing) value in the named column. */
  predicate HasField(row: Row, field: string)
  {
    if SlotPrefixed(field) && ParseSlotColumn(field).Some? then SlotHasValue(row, ParseSlotColumn(field).value)
    else NamedHasValue(row, field)
  }

  /** Whether the name starts as a numbered column does: `DX`, `POA` or `Pr`. */
  predicate SlotPrefixed(field: string)
  {
    |field| > 2 && ((field[0] == 'D' && field[1] == 'X') || (field[0] == 'P' && ((field[1] == 'O' && field[2] == 'A') || field[1] == 'r')))
  }

  /** Whether a column that is not numbered holds a value. */
  predicate NamedHasValue(row: Row, field: string)
  {
    if field == "EncounterID" then row.encounterId.Some?
    else if field == "AGE" then row.age.Some?
    else if field == "SEX" then row.sex.Some?
    else if field == "MS-DRG" then row.drg.Some?
    else if field == "MDC" then row.mdc.Some?
    else if field == "Pdx" then row.pdx.Some?
    else if field == "Admission_Date" then row.admissionDate.Written?
    else if field == "Discharge_Date" then row.dischargeDate.Written?
    else if field == "Length_of_stay" then row.lengthOfStay.Some?
    else if field == "ATYPE" then row.admissionType.Some?
    else if field == "Discharge_Disposition" then row.disposition.Some?
    else if field == "POINTOFORIGINUB04" then row.pointOfOrigin.Some?
    else field in row.otherFields
  }

  /**
   * The numbered columns are read from the row's slot sequences: `DX<n>`, `POA<n>`,
   * `Proc<n>` and `Proc<n>_Date` hold a value exactly when slot `n` of the matching
   * sequence does.
   */
  lemma HasSlotColumns(row: Row, n: nat)
    requires n >= 1
    ensures HasField(row, "DX" + NumeralText(n)) <==> DxAt(row, n).Some?
    ensures HasField(row, "POA" + NumeralText(n)) <==> PoaAt(row, n).Some?
    ensures HasField(row, "Proc" + NumeralText(n)) <==> ProcAt(row, n - 1).code.Some?
    ensures HasField(row, "Proc" + NumeralText(n) + "_Date") <==> ProcAt(row, n - 1).date.Written?
  {
    ParseColumnName(DxColumn(n));
    ParseColumnName(PoaColumn(n));
    ParseColumnName(ProcColumn(n));
    ParseColumnName(ProcDateColumn(n));
  }

  /** `str(row.get('MS-DRG'))`; a missing DRG prints as `nan`. */
  function DrgText(row: Row): string
  {
    match row.drg
    case Some(d) => d
    case None => "nan"
  }

  /** Column `POA<n>`. */
  function PoaAt(row: Row, n: nat): Option<string>
  {
    if 1 <= n <= |row.poa| then row.poa[n - 1] else None
  }

  /** Column `DX<i>`. */
  function DxAt(row: Row, i: nat): Option<string>
  {
    if 1 <= i <= |row.dx| then row.dx[i - 1] else None
  }

  /** Diagnosis slot `k`: 0 is `Pdx`, `k` in 1..25 is `DX<k>`. */
  function CodeAt(row: Row, k: nat): Option<string>
  {
    if k == 0 then row.pdx else DxAt(row, k)
  }

  /** Procedure slot `k` (0-based): column `Proc<k+1>`. */
  function ProcAt(row: Row, k: nat): ProcSlot
  {
    if k < |row.procs| then row.procs[k] else ProcSlot(None, Blank)
  }

  const DiagnosisSlots: nat := 26
  const ProcedureSlots: nat := 10

  /** One extracted diagnosis; `poa` is `None` when the flag is missing. */
  datatype DxEntry = DxEntry(code: string, poa: Option<string>)

  /** One extracted procedure with its resolved timestamp (`None` is `NaT`). */
  datatype ProcEntry = ProcEntry(code: string, date: Option<int>)

  /** Only the literal `Y` means present on admission. */
  predicate IsPoaY(poa: Option<string>)
  {
    poa == Some("Y")
  }

  /** The numerator test "not present on admission": `N`, `U`, `W` or missing. */
  predicate NotPoa(poa: Option<string>)
  {
    poa == None || poa == Some("N") || poa == Some("U") || poa == Some("W")
  }

  /** What slot `k` contributes: its code paired with `POA<k+1>`, or nothing when the code is missing. */
  function SlotDiagnosis(row: Row, k: nat): seq<DxEntry>
  {
    match CodeAt(row, k)
    case Some(c) => [DxEntry(c, PoaAt(row, k + 1))]
    case None => []
  }

  /** The diagnoses extracted from slots 0 .. k-1. */
  function DiagnosesUpTo(row: Row, k: nat): seq<DxEntry>
  {
    if k == 0 then [] else DiagnosesUpTo(row, k - 1) + SlotDiagnosis(row, k - 1)
  }

  function AllDiagnoses(row: Row): seq<DxEntry>
  {
    DiagnosesUpTo(row, DiagnosisSlots)
  }

  function SlotProcedure(row: Row, k: nat): seq<ProcEntry>
  {
    var slot := ProcAt(row, k);
    match slot.code
    case Some(c) => [ProcEntry(c, slot.date.Resolve())]
    case None => []
  }

  /** The procedures extracted from slots 0 .. k-1. */
  function ProceduresUpTo(row: Row, k: nat): seq<ProcEntry>
  {
    if k == 0 then [] else ProceduresUpTo(row, k - 1) + SlotProcedure(row, k - 1)
  }

  function AllProcedures(row: Row): seq<ProcEntry>
  {
    ProceduresUpTo(row, ProcedureSlots)
  }

  /**
   * The extracted diagnoses are exactly the filled slots: an entry is listed exactly
   * when some slot below `k` holds its code and the matching `POA` column holds its
   * flag, and there are at most `k` of them.
   */
  lemma {:induction false} DiagnosesUpToMembers(row: Row, k: nat)
    ensures |DiagnosesUpTo(row, k)| <= k
    ensures forall d :: d in DiagnosesUpTo(row, k) <==>
              exists j :: 0 <= j < k && CodeAt(row, j) == Some(d.code) && PoaAt(row, j + 1) == d.poa
  {
    if k > 0 {
      DiagnosesUpToMembers(row, k - 1);
      var last := SlotDiagnosis(row, k - 1);
      forall d
        ensures d in DiagnosesUpTo(row, k) <==>
                exists j :: 0 <= j < k && CodeAt(row, j) == Some(d.code) && PoaAt(row, j + 1) == d.poa
      {
        if CodeAt(row, k - 1) == Some(d.code) && PoaAt(row, k) == d.poa {
          assert d in last;
        }
        if d in last {
          assert CodeAt(row, k - 1) == Some(d.code) && PoaAt(row, k) == d.poa;
        }
      }
    }
  }

  /** With a principal diagnosis present, it comes first, paired with `POA1`. */
  lemma {:induction false} PrincipalComesFirst(row: Row, k: nat)
    requires 1 <= k && row.pdx.Some?
    ensures |DiagnosesUpTo(row, k)| >= 1 && DiagnosesUpTo(row, k)[0] == DxEntry(row.pdx.value, PoaAt(row, 1))
  {
    if k > 1 {
      PrincipalComesFirst(row, k - 1);
    }
  }

  /** The diagnosis slots below `k` that hold a code, in increasing order. */
  function FilledDiagnosisSlots(row: Row, k: nat): seq<nat>
  {
    if k == 0 then []
    else FilledDiagnosisSlots(row, k - 1) + (if CodeAt(row, k - 1).Some? then [k - 1] else [])
  }

  /**
   * The extracted diagnoses follow the slots in order, one entry per filled slot: entry
   * `i` is built from the `i`-th filled slot, the filled slots increase strictly, and
   * every filled slot below `k` is among them.
   */
  lemma {:induction false} DiagnosesUpToInSlotOrder(row: Row, k: nat)
    ensures var dxs, slots := DiagnosesUpTo(row, k), FilledDiagnosisSlots(row, k);
            && |slots| == |dxs|
            && (forall i :: 0 <= i < |slots| ==>
                  slots[i] < k && CodeAt(row, slots[i]).Some? &&
                  dxs[i] == DxEntry(CodeAt(row, slots[i]).value, PoaAt(row, slots[i] + 1)))
            && (forall i, j :: 0 <= i < j < |slots| ==> slots[i] < slots[j])
            && (forall j :: 0 <= j < k && CodeAt(row, j).Some? ==> j in slots)
  {
    if k > 0 {
      DiagnosesUpToInSlotOrder(row, k - 1);
    }
  }

  /**
   * The whole list: at most 26 entries, the listed ones are the filled slots, principal
   * first, one entry per filled slot in slot order.
   */
  lemma AllDiagnosesCharacterized(row: Row)
    ensures |AllDiagnoses(row)| <= DiagnosisSlots
    ensures forall d :: d in AllDiagnoses(row) <==>
              exists j :: 0 <= j < DiagnosisSlots && CodeAt(row, j) == Some(d.code) && PoaAt(row, j + 1) == d.poa
    ensures row.pdx.Some? ==> |AllDiagnoses(row)| >= 1 && AllDiagnoses(row)[0] == DxEntry(row.pdx.value, PoaAt(row, 1))
    ensures var dxs, slots := AllDiagnoses(row), FilledDiagnosisSlots(row, DiagnosisSlots);
            && |slots| == |dxs|
            && (forall i :: 0 <= i < |slots| ==>
                  slots[i] < DiagnosisSlots && CodeAt(row, slots[i]).Some? &&
                  dxs[i] == DxEntry(CodeAt(row, slots[i]).value, PoaAt(row, slots[i] + 1)))
            && (forall i, j :: 0 <= i < j < |slots| ==> slots[i] < slots[j])
            && (forall j :: 0 <= j < DiagnosisSlots && CodeAt(row, j).Some? ==> j in slots)
  {
    DiagnosesUpToMembers(row, DiagnosisSlots);
    DiagnosesUpToInSlotOrder(row, DiagnosisSlots);
    if row.pdx.Some? {
      PrincipalComesFirst(row, DiagnosisSlots);
    }
  }

  /** The extracted procedures are exactly the filled procedure slots, each with its resolved date. */
  lemma {:induction false} ProceduresUpToMembers(row: Row, k: nat)
    ensures |ProceduresUpTo(row, k)| <= k
    ensures forall p :: p in ProceduresUpTo(row, k) <==>
              exists j :: 0 <= j < k && ProcAt(row, j).code == Some(p.code) && ProcAt(row, j).date.Resolve() == p.date
  {
    if k > 0 {
      ProceduresUpToMembers(row, k - 1);
      var last := SlotProcedure(row, k - 1);
      forall p
        ensures p in ProceduresUpTo(row, k) <==>
                exists j :: 0 <= j < k && ProcAt(row, j).code == Some(p.code) && ProcAt(row, j).date.Resolve() == p.date
      {
        if ProcAt(row, k - 1).code == Some(p.code) && ProcAt(row, k - 1).date.Resolve() == p.date {
          assert p in last;
        }
        if p in last {
          assert ProcAt(row, k - 1).code == Some(p.code) && ProcAt(row, k - 1).date.Resolve() == p.date;
        }
      }
    }
  }

  /** The procedure slots below `k` that hold a code, in increasing order. */
  function FilledProcedureSlots(row: Row, k: nat): seq<nat>
  {
    if k == 0 then []
    else FilledProcedureSlots(row, k - 1) + (if ProcAt(row, k - 1).code.Some? then [k - 1] else [])
  }

  /** The extracted procedures follow the slots in order, one entry per filled slot. */
  lemma {:induction false} ProceduresUpToInSlotOrder(row: Row, k: nat)
    ensures var ps, slots := ProceduresUpTo(row, k), FilledProcedureSlots(row, k);
            && |slots| == |ps|
            && (forall i :: 0 <= i < |slots| ==>
                  slots[i] < k && ProcAt(row, slots[i]).code.Some? &&
                  ps[i] == ProcEntry(ProcAt(row, slots[i]).code.value, ProcAt(row, slots[i]).date.Resolve()))
            && (forall i, j :: 0 <= i < j < |slots| ==> slots[i] < slots[j])
            && (forall j :: 0 <= j < k && ProcAt(row, j).code.Some? ==> j in slots)
  {
    if k > 0 {
      ProceduresUpToInSlotOrder(row, k - 1);
    }
  }

  /** The whole list: at most ten entries, one per filled procedure slot in slot order, each with its resolved date. */
  lemma AllProceduresCharacterized(row: Row)
    ensures |AllProcedures(row)| <= ProcedureSlots
    ensures forall p :: p in AllProcedures(row) <==>
              exists j :: 0 <= j < ProcedureSlots && ProcAt(row, j).code == Some(p.code) && ProcAt(row, j).date.Resolve() == p.date
    ensures var ps, slots := AllProcedures(row), FilledProcedureSlots(row, ProcedureSlots);
            && |slots| == |ps|
            && (forall i :: 0 <= i < |slots| ==>
                  slots[i] < ProcedureSlots && ProcAt(row, slots[i]).code.Some? &&
                  ps[i] == ProcEntry(ProcAt(row, slots[i]).code.value, ProcAt(row, slots[i]).date.Resolve()))
            && (forall i, j :: 0 <= i < j < |slots| ==> slots[i] < slots[j])
            && (forall j :: 0 <= j < ProcedureSlots && ProcAt(row, j).code.Some? ==> j in slots)
  {
    ProceduresUpToMembers(row, ProcedureSlots);
    ProceduresUpToInSlotOrder(row, ProcedureSlots);
  }

  // Scan predicates over the extracted lists (the source's `any(...)` expressions).

  predicate AnyDxIn(dxs: seq<DxEntry>, codes: set<string>)
  {
    exists k :: 0 <= k < |dxs| && dxs[k].code in codes
  }

  predicate AnyDxPoaYIn(dxs: seq<DxEntry>, codes: set<string>)
  {
    exists k :: 0 <= k < |dxs| && dxs[k].code in codes && IsPoaY(dxs[k].poa)
  }

  /** A secondary (index 1 on) diagnosis from `codes` that is not present on admission. */
  predicate AnySecondaryNotPoaIn(dxs: seq<DxEntry>, codes: set<string>)
  {
    exists k :: 1 <= k < |dxs| && dxs[k].code in codes && NotPoa(dxs[k].poa)
  }

  predicate AnyProcIn(ps: seq<ProcEntry>, codes: set<string>)
  {
    exists k :: 0 <= k < |ps| && ps[k].code in codes
  }
}
