/** The decimal spelling `stringstream << i` gives an actor's ordinal, and the
    per-actor file names built from it. */
module Decimal {
  import opened Optional

  predicate IsDigit(c: char) { '0' <= c <= '9' }

  function DigitChar(d: nat): (c: char)
    requires d < 10
    ensures IsDigit(c) && (c as int) - ('0' as int) == d
  {
    ('0' as int + d) as char
  }

  function DigitValue(c: char): nat
    requires IsDigit(c)
  {
    (c as int) - ('0' as int)
  }

  /** `n` in base ten, most significant digit first, no sign, no padding. */
  function Decimal(n: nat): (s: string)
    ensures 1 <= |s| && forall i :: 0 <= i < |s| ==> IsDigit(s[i])
    ensures |s| > 1 ==> s[0] != '0'
    decreases n
  {
    if n < 10 then [DigitChar(n)] else Decimal(n / 10) + [DigitChar(n % 10)]
  }

  /** The value of a string of digits read most significant first. */
  function DigitsValue(s: string): nat
    requires forall i :: 0 <= i < |s| ==> IsDigit(s[i])
    decreases |s|
  {
    if s == [] then 0 else DigitsValue(s[..|s| - 1]) * 10 + DigitValue(s[|s| - 1])
  }

  /** Reads a decimal numeral in the canonical spelling `Decimal` produces. */
  function ParseDecimal(s: string): Option<nat> {
    if 1 <= |s| && (forall i :: 0 <= i < |s| ==> IsDigit(s[i])) && (|s| == 1 || s[0] != '0') then
      Some(DigitsValue(s))
    else
      None
  }

  lemma {:induction false} DecimalValue(n: nat)
    ensures DigitsValue(Decimal(n)) == n
    decreases n
  {
    if n >= 10 {
      var s := Decimal(n);
      assert s[..|s| - 1] == Decimal(n / 10);
      DecimalValue(n / 10);
    }
  }

  /** Reading the spelling back gives the number. */
  lemma DecimalRoundTrip(n: nat)
    ensures ParseDecimal(Decimal(n)) == Some(n)
  {
    DecimalValue(n);
  }

  /** Distinct numbers are spelled differently. */
  lemma DecimalInjective(i: nat, j: nat)
    ensures Decimal(i) == Decimal(j) <==> i == j
  {
    if Decimal(i) == Decimal(j) {
      DecimalRoundTrip(i);
      DecimalRoundTrip(j);
    }
  }

  /** The file actor `i` goes to in split mode: `output_path + i + ".stl"`. */
  function ActorFileName(path: string, i: nat): (name: string)
    ensures |name| > |path| + 4 && name[..|path|] == path
    ensures name[|name| - 4..] == ".stl"
  {
    path + Decimal(i) + ".stl"
  }

  /** The single file of aggregated mode. */
  function AggregateFileName(path: string): (name: string)
    ensures |name| == |path| + 10 && name[..|path|] == path
    ensures name[|path|..] == "output.stl"
  {
    path + "output.stl"
  }

  /** Split mode never sends two actors to the same file. */
  lemma ActorFileNamesDistinct(path: string, i: nat, j: nat)
    ensures ActorFileName(path, i) == ActorFileName(path, j) <==> i == j
  {
    var a, b := ActorFileName(path, i), ActorFileName(path, j);
    if a == b {
      var di, dj := Decimal(i), Decimal(j);
      assert |di| == |dj|;
      assert di == a[|path|..|path| + |di|];
      assert dj == b[|path|..|path| + |dj|];
      DecimalInjective(i, j);
    }
  }

  /** Nor to the file aggregated mode uses: a name that starts with a digit
      after the path is never `output.stl`. */
  lemma ActorFileIsNotAggregateFile(path: string, i: nat)
    ensures ActorFileName(path, i) != AggregateFileName(path)
  {
    var a := ActorFileName(path, i);
    assert a[|path|] == Decimal(i)[0];
    assert AggregateFileName(path)[|path|] == 'o';
  }
}
