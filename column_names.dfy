/**
 * The numbered column names of an encounter row: `DX<i>`, `POA<n>`, `Proc<k>` and
 * `Proc<k>_Date`, where the number is written in decimal without leading zeros, as
 * Python's `str` prints a positive integer.
 */
module ColumnNames {
  import opened Wrappers

  predicate IsDigit(c: char)
  {
    '0' <= c <= '9'
  }

  function Digit(d: nat): (c: char)
    requires d < 10
    ensures IsDigit(c) && c as int - '0' as int == d
  {
    ('0' as int + d) as char
  }

  /** `str(n)`. */
  function NumeralText(n: nat): string
    decreases n
  {
    if n < 10 then [Digit(n)] else NumeralText(n / 10) + [Digit(n % 10)]
  }

  predicate AllDigits(s: string)
    decreases |s|
  {
    s == [] || (AllDigits(s[..|s| - 1]) && IsDigit(s[|s| - 1]))
  }

  /** The value of a decimal numeral. */
  function NumeralValue(s: string): nat
    requires AllDigits(s)
    decreases |s|
  {
    if s == [] then 0 else NumeralValue(s[..|s| - 1]) * 10 + (s[|s| - 1] as int - '0' as int)
  }

  /** A numeral as `str` prints a positive integer: digits only, not empty, no leading zero. */
  predicate IsPositiveNumeral(s: string)
  {
    |s| > 0 && AllDigits(s) && s[0] != '0'
  }

  /**
   * The slot number of a column named `prefix`, a positive numeral, then `suffix`;
   * `None` for any other name.
   */
  function SlotNumber(field: string, prefix: string, suffix: string): Option<nat>
  {
    if |field| > |prefix| + |suffix| && field[..|prefix|] == prefix && field[|field| - |suffix|..] == suffix
       && IsPositiveNumeral(field[|prefix|..|field| - |suffix|])
    then Some(NumeralValue(field[|prefix|..|field| - |suffix|]))
    else None
  }

  /** Printing a positive number gives a positive numeral that reads back as that number. */
  lemma {:induction false} NumeralRoundTrip(n: nat)
    requires n >= 1
    ensures IsPositiveNumeral(NumeralText(n)) && NumeralValue(NumeralText(n)) == n
    decreases n
  {
    var t := NumeralText(n);
    if n >= 10 {
      NumeralRoundTrip(n / 10);
      var init := NumeralText(n / 10);
      assert t[..|t| - 1] == init;
      assert t[0] == init[0];
    }
  }

  lemma {:induction false} PositiveNumeralValue(s: string)
    requires IsPositiveNumeral(s)
    ensures NumeralValue(s) >= 1
    decreases |s|
  {
    if |s| > 1 {
      PositiveNumeralValue(s[..|s| - 1]);
    }
  }

  /** A positive numeral is what printing its value gives. */
  lemma {:induction false} NumeralTextOfValue(s: string)
    requires IsPositiveNumeral(s)
    ensures NumeralText(NumeralValue(s)) == s
    decreases |s|
  {
    if |s| > 1 {
      var init := s[..|s| - 1];
      NumeralTextOfValue(init);
      PositiveNumeralValue(init);
      var v := NumeralValue(s);
      assert v / 10 == NumeralValue(init) && v % 10 == s[|s| - 1] as int - '0' as int;
      assert s == init + [s[|s| - 1]];
    }
  }

  /**
   * Column names and slot numbers correspond one to one: the name built from a slot
   * number reads back as that number, and a name that reads as a slot number is the
   * name built from it.
   */
  lemma SlotNameRoundTrip(prefix: string, suffix: string, n: nat)
    requires n >= 1
    ensures SlotNumber(prefix + NumeralText(n) + suffix, prefix, suffix) == Some(n)
  {
    NumeralRoundTrip(n);
    var field := prefix + NumeralText(n) + suffix;
    assert field[..|prefix|] == prefix;
    assert field[|field| - |suffix|..] == suffix;
    assert field[|prefix|..|field| - |suffix|] == NumeralText(n);
  }

  lemma SlotNumberNamesSlot(field: string, prefix: string, suffix: string)
    requires SlotNumber(field, prefix, suffix).Some?
    ensures SlotNumber(field, prefix, suffix).value >= 1
    ensures field == prefix + NumeralText(SlotNumber(field, prefix, suffix).value) + suffix
  {
    var mid := field[|prefix|..|field| - |suffix|];
    NumeralTextOfValue(mid);
    PositiveNumeralValue(mid);
    assert field == field[..|prefix|] + mid + field[|field| - |suffix|..];
  }

  /** A numbered column: `DX<n>`, `POA<n>`, `Proc<n>` or `Proc<n>_Date`. */
  datatype SlotColumn =
    | DxColumn(n: nat)
    | PoaColumn(n: nat)
    | ProcColumn(n: nat)
    | ProcDateColumn(n: nat)

  function ColumnName(c: SlotColumn): string
  {
    match c
    case DxColumn(n) => "DX" + NumeralText(n)
    case PoaColumn(n) => "POA" + NumeralText(n)
    case ProcColumn(n) => "Proc" + NumeralText(n)
    case ProcDateColumn(n) => "Proc" + NumeralText(n) + "_Date"
  }

  /** The numbered column a name denotes, if it denotes one. */
  function ParseSlotColumn(field: string): Option<SlotColumn>
  {
    if SlotNumber(field, "DX", "").Some? then Some(DxColumn(SlotNumber(field, "DX", "").value))
    else if SlotNumber(field, "POA", "").Some? then Some(PoaColumn(SlotNumber(field, "POA", "").value))
    else if SlotNumber(field, "Proc", "").Some? then Some(ProcColumn(SlotNumber(field, "Proc", "").value))
    else if SlotNumber(field, "Proc", "_Date").Some? then Some(ProcDateColumn(SlotNumber(field, "Proc", "_Date").value))
    else None
  }

  /** The name of a numbered column reads back as that column. */
  lemma ParseColumnName(c: SlotColumn)
    requires c.n >= 1
    ensures ParseSlotColumn(ColumnName(c)) == Some(c)
  {
    var t := NumeralText(c.n);
    var f := ColumnName(c);
    match c
    case DxColumn(n) =>
      SlotNameRoundTrip("DX", "", n);
      assert f == "DX" + t + "";
    case PoaColumn(n) =>
      SlotNameRoundTrip("POA", "", n);
      assert f == "POA" + t + "";
      assert f[1] == 'O';
    case ProcColumn(n) =>
      SlotNameRoundTrip("Proc", "", n);
      assert f == "Proc" + t + "";
      assert f[0] == 'P' && f[1] == 'r';
    case ProcDateColumn(n) =>
      SlotNameRoundTrip("Proc", "_Date", n);
      assert f[0] == 'P' && f[1] == 'r';
      assert f[4..|f|][|t|] == '_';
  }

  /** A name that denotes a numbered column is that column's name, with a slot number of at least one. */
  lemma ParsedColumnIsNamed(field: string)
    requires ParseSlotColumn(field).Some?
    ensures ParseSlotColumn(field).value.n >= 1
    ensures ColumnName(ParseSlotColumn(field).value) == field
  {
    if SlotNumber(field, "DX", "").Some? {
      SlotNumberNamesSlot(field, "DX", "");
    } else if SlotNumber(field, "POA", "").Some? {
      SlotNumberNamesSlot(field, "POA", "");
    } else if SlotNumber(field, "Proc", "").Some? {
      SlotNumberNamesSlot(field, "Proc", "");
    } else {
      SlotNumberNamesSlot(field, "Proc", "_Date");
    }
  }
}
