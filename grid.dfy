/**
 * The text shown on the display after each scan: the sixteen distances in decimal as a
 * 4 x 4 grid, cells separated by two spaces and rows by a line break. A reader for that
 * text recovers the distances, which shows the layout loses nothing.
 */
module Grid {
  import opened Ints
  import opened Wrappers

  predicate IsDigit(c: char)
  {
    '0' <= c <= '9'
  }

  /** The decimal digit for `k`. */
  function Digit(k: nat): (c: char)
    requires k < 10
    ensures IsDigit(c)
  {
    (48 + k) as char
  }

  /** The value of decimal digit `c`. */
  function DigitValue(c: char): (k: nat)
    requires IsDigit(c)
    ensures k < 10 && Digit(k) == c
  {
    c as int - 48
  }

  /** `n` in decimal, as `{}` formats an unsigned integer: no sign, no leading zeros. */
  function Dec(n: nat): (s: string)
    ensures 1 <= |s|
    ensures forall j :: 0 <= j < |s| ==> IsDigit(s[j])
    ensures |s| > 1 ==> s[0] != '0'
  {
    if n < 10 then [Digit(n)] else Dec(n / 10) + [Digit(n % 10)]
  }

  /** What comes between cell `i - 1` and cell `i`: a line break before each new row, else two spaces. */
  function Separator(i: nat): string
  {
    if i % 4 == 0 then "\n" else "  "
  }

  /** Cells `i..15` of the grid and the separators between them. */
  function CellsFrom(d: seq<u16>, i: nat): string
    requires |d| == 16 && i < 16
    decreases 16 - i
  {
    if i == 15 then Dec(d[15]) else Dec(d[i]) + (Separator(i + 1) + CellsFrom(d, i + 1))
  }

  /** The display text for the distances `d`, row by row. Reading it back gives exactly `d`. */
  function StringifyDistances(d: seq<u16>): (text: string)
    requires |d| == 16
    ensures ParseGrid(text) == Some(d)
  {
    ParseCellsFromRoundTrip(d, 0);
    assert d[0..] == d;
    CellsFrom(d, 0)
  }

  /** The length of the run of digits `s` starts with. */
  function LeadingDigits(s: string): (k: nat)
    ensures k <= |s|
  {
    if |s| == 0 || !IsDigit(s[0]) then 0 else 1 + LeadingDigits(s[1..])
  }

  /** The number a run of decimal digits spells. */
  function ValueOf(t: string): nat
    requires forall j :: 0 <= j < |t| ==> IsDigit(t[j])
  {
    if |t| == 0 then 0 else 10 * ValueOf(t[..|t| - 1]) + DigitValue(t[|t| - 1])
  }

  /** Reads one cell: a non-empty run of digits whose value fits a u16, and what follows it. */
  function ParseCell(s: string): Option<(u16, string)>
  {
    var k := LeadingDigits(s);
    LeadingDigitsAreDigits(s);
    if k == 0 || ValueOf(s[..k]) >= U16_MODULUS then None
    else Some((ValueOf(s[..k]), s[k..]))
  }

  /** Reads cells `i..15`, with the separators the grid puts between them, up to the end of `s`. */
  function ParseCellsFrom(s: string, i: nat): Option<seq<u16>>
    requires i < 16
    decreases 16 - i
  {
    match ParseCell(s)
    case None => None
    case Some((v, rest)) =>
      if i == 15 then
        (if rest == [] then Some([v]) else None)
      else
        var sep := Separator(i + 1);
        if |rest| < |sep| || rest[..|sep|] != sep then None
        else
          match ParseCellsFrom(rest[|sep|..], i + 1)
          case None => None
          case Some(vs) => Some([v] + vs)
  }

  /** Reads the display text back into the sixteen distances. */
  function ParseGrid(s: string): Option<seq<u16>>
  {
    ParseCellsFrom(s, 0)
  }

  lemma {:induction false} LeadingDigitsAreDigits(s: string)
    ensures forall j :: 0 <= j < LeadingDigits(s) ==> IsDigit(s[j])
  {
    if |s| > 0 && IsDigit(s[0]) {
      LeadingDigitsAreDigits(s[1..]);
      forall j | 0 < j < LeadingDigits(s)
        ensures IsDigit(s[j])
      {
        assert s[j] == s[1..][j - 1];
      }
    }
  }

  /** A run of digits followed by a non-digit (or nothing) is read up to exactly that non-digit. */
  lemma {:induction false} LeadingDigitsOfRun(t: string, rest: string)
    requires forall j :: 0 <= j < |t| ==> IsDigit(t[j])
    requires rest == [] || !IsDigit(rest[0])
    ensures LeadingDigits(t + rest) == |t|
  {
    if |t| == 0 {
      assert t + rest == rest;
    } else {
      assert (t + rest)[1..] == t[1..] + rest;
      LeadingDigitsOfRun(t[1..], rest);
    }
  }

  /** Reading the decimal text of `n` gives `n` back. */
  lemma {:induction false} ValueOfDec(n: nat)
    ensures ValueOf(Dec(n)) == n
  {
    if n >= 10 {
      var t := Dec(n);
      assert t[..|t| - 1] == Dec(n / 10);
      ValueOfDec(n / 10);
    }
  }

  /** A cell written as `Dec(v)` and followed by a non-digit is read back as `v`. */
  lemma ParseCellOfDec(v: u16, rest: string)
    requires rest == [] || !IsDigit(rest[0])
    ensures ParseCell(Dec(v) + rest) == Some((v, rest))
  {
    var s := Dec(v) + rest;
    LeadingDigitsOfRun(Dec(v), rest);
    assert s[..|Dec(v)|] == Dec(v);
    assert s[|Dec(v)|..] == rest;
    ValueOfDec(v);
  }

  /** The last cell is read to the end of the text. */
  lemma ParseLastCell(d: seq<u16>)
    requires |d| == 16
    ensures ParseCellsFrom(CellsFrom(d, 15), 15) == Some(d[15..])
  {
    assert Dec(d[15]) + [] == Dec(d[15]);
    ParseCellOfDec(d[15], []);
    assert d[15..] == [d[15]];
  }

  /** A cell, its separator and the text after it are read as that cell followed by what the text holds. */
  lemma ParseCellThenRest(v: u16, tail: string, i: nat, vs: seq<u16>)
    requires i < 15
    requires ParseCellsFrom(tail, i + 1) == Some(vs)
    ensures ParseCellsFrom(Dec(v) + (Separator(i + 1) + tail), i) == Some([v] + vs)
  {
    var sep := Separator(i + 1);
    ParseCellOfDec(v, sep + tail);
    assert (sep + tail)[..|sep|] == sep;
    assert (sep + tail)[|sep|..] == tail;
  }

  lemma ParseCellsFromStep(d: seq<u16>, i: nat)
    requires |d| == 16 && i < 15
    requires ParseCellsFrom(CellsFrom(d, i + 1), i + 1) == Some(d[i + 1..])
    ensures ParseCellsFrom(CellsFrom(d, i), i) == Some(d[i..])
  {
    var tail := CellsFrom(d, i + 1);
    assert CellsFrom(d, i) == Dec(d[i]) + (Separator(i + 1) + tail);
    assert [d[i]] + d[i + 1..] == d[i..];
    ParseCellThenRest(d[i], tail, i, d[i + 1..]);
  }

  /** Reading cells `i..15` of the grid text recovers distances `i..15`. */
  lemma {:induction false} ParseCellsFromRoundTrip(d: seq<u16>, i: nat)
    requires |d| == 16 && i < 16
    ensures ParseCellsFrom(CellsFrom(d, i), i) == Some(d[i..])
    decreases 16 - i
  {
    if i == 15 {
      ParseLastCell(d);
    } else {
      ParseCellsFromRoundTrip(d, i + 1);
      ParseCellsFromStep(d, i);
    }
  }

  /** Two scans show the same text only if they measured the same distances. */
  lemma StringifyInjective(d: seq<u16>, e: seq<u16>)
    requires |d| == 16 && |e| == 16
    requires StringifyDistances(d) == StringifyDistances(e)
    ensures d == e
  {
    assert Some(d) == ParseGrid(StringifyDistances(d)) == ParseGrid(StringifyDistances(e)) == Some(e);
  }
}
