/**
 * The parts of Rust's standard library the calibrator calls, on strings of
 * `char`: `char::to_digit(10)`, `u32::to_string` of a one-digit value,
 * `str::lines` and `str::parse::<u32>`.
 */
module RustStd {
  import opened Wrappers

  /** Largest value of a Rust `u32`. */
  const U32_MAX: nat := 0xFFFF_FFFF

  /** An ASCII decimal digit, the only characters `to_digit(10)` accepts. */
  predicate IsDigit(c: char) {
    '0' <= c <= '9'
  }

  /** `char::to_digit(10)`. */
  function ToDigit(c: char): (r: Option<nat>)
    ensures r.Some? <==> IsDigit(c)
    ensures r.Some? ==> r.value < 10
  {
    if IsDigit(c) then Some(c as int - '0' as int) else None
  }

  /** The character `to_string` prints for a value below ten. */
  function DigitChar(d: nat): (c: char)
    requires d < 10
    ensures IsDigit(c) && ToDigit(c) == Some(d)
  {
    ('0' as int + d) as char
  }

  /** Position of the first '\n' in `s`, or `|s|` when there is none. */
  function LineEnd(s: string): (k: nat)
    ensures k <= |s|
    ensures forall i :: 0 <= i < k ==> s[i] != '\n'
    ensures k < |s| ==> s[k] == '\n'
  {
    if s == [] || s[0] == '\n' then 0 else 1 + LineEnd(s[1..])
  }

  /** Drops the '\r' of a "\r\n" line ending. */
  function StripCR(l: string): (r: string)
    ensures r == l || (r + "\r" == l)
  {
    if l != [] && l[|l| - 1] == '\r' then l[..|l| - 1] else l
  }

  /**
   * `str::lines`: the text split at each '\n'; a '\r' just before a '\n' is
   * dropped with it, and a last line without a '\n' is kept as it is.
   */
  function Lines(s: string): (ls: seq<string>)
    ensures forall k :: 0 <= k < |ls| ==> '\n' !in ls[k]
    decreases |s|
  {
    if s == [] then []
    else
      var k := LineEnd(s);
      if k == |s| then [s]
      else [StripCR(s[..k])] + Lines(s[k + 1..])
  }

  /**
   * The text made of the given lines, each followed by a '\n': empty exactly
   * when there are no lines, and otherwise ending in '\n'.
   */
  function Joined(ls: seq<string>): (r: string)
    ensures r == [] <==> ls == []
    ensures ls != [] ==> r[|r| - 1] == '\n'
  {
    if ls == [] then "" else ls[0] + "\n" + Joined(ls[1..])
  }

  lemma {:induction false} JoinedSnoc(ls: seq<string>, l: string)
    ensures Joined(ls + [l]) == Joined(ls) + l + "\n"
  {
    if ls != [] {
      assert (ls + [l])[1..] == ls[1..] + [l];
      JoinedSnoc(ls[1..], l);
    }
  }

  /** Each line with the '\r' of a "\r\n" ending dropped. */
  function StripCRs(ls: seq<string>): (rs: seq<string>)
    ensures |rs| == |ls|
  {
    if ls == [] then [] else [StripCR(ls[0])] + StripCRs(ls[1..])
  }

  /** Lines with no '\r' ending to drop are kept as they are. */
  lemma {:induction false} StripCRsKeep(ls: seq<string>)
    requires forall k :: 0 <= k < |ls| ==> StripCR(ls[k]) == ls[k]
    ensures StripCRs(ls) == ls
  {
    if ls != [] {
      StripCRsKeep(ls[1..]);
      assert [ls[0]] + ls[1..] == ls;
    }
  }

  /** A first line followed by '\n' splits off as one line. */
  lemma SplitFirstLine(l: string, rest: string)
    requires '\n' !in l
    ensures Lines(l + "\n" + rest) == [StripCR(l)] + Lines(rest)
  {
    var s := l + "\n" + rest;
    var n := |l|;
    assert s[n] == '\n';
    assert forall i :: 0 <= i < n ==> s[i] == l[i];
    var k := LineEnd(s);
    assert k == n by {
      assert !(k < n);
      assert !(n < k);
    }
    assert s[..k] == l;
    assert s[k + 1..] == rest;
  }

  /**
   * Splitting text made of lines each ended by '\n' gives those lines back,
   * less the '\r' of any "\r\n" ending.
   */
  lemma {:induction false} LinesOfJoined(ls: seq<string>)
    requires forall k :: 0 <= k < |ls| ==> '\n' !in ls[k]
    ensures Lines(Joined(ls)) == StripCRs(ls)
  {
    if ls != [] {
      SplitFirstLine(ls[0], Joined(ls[1..]));
      LinesOfJoined(ls[1..]);
    }
  }


  /** The kinds of `ParseIntError` a `u32` parse can return. */
  datatype IntErrorKind = Empty | InvalidDigit | PosOverflow

  /**
   * The digits of `s` read left to right onto `acc`, failing at the first
   * character that is not a digit or the first step that exceeds `U32_MAX`.
   */
  function AccumulateDigits(acc: nat, s: string): (r: Result<nat, IntErrorKind>)
    requires acc <= U32_MAX
    ensures r.Ok? ==> acc <= r.value <= U32_MAX
    ensures r.Ok? ==> forall i :: 0 <= i < |s| ==> IsDigit(s[i])
    ensures r == Err(InvalidDigit) ==> exists i :: 0 <= i < |s| && !IsDigit(s[i])
    ensures r != Err(Empty)
    decreases |s|
  {
    if s == [] then Ok(acc)
    else if !IsDigit(s[0]) then Err(InvalidDigit)
    else
      var next := acc * 10 + ToDigit(s[0]).value;
      if next > U32_MAX then Err(PosOverflow) else AccumulateDigits(next, s[1..])
  }

  /** `str::parse::<u32>`: an optional '+' and then decimal digits. */
  function ParseU32(s: string): (r: Result<nat, IntErrorKind>)
    ensures r.Ok? ==> r.value <= U32_MAX
    ensures r == Err(Empty) <==> s == []
  {
    if s == [] then Err(Empty)
    else if (s[0] == '+' || s[0] == '-') && |s| == 1 then Err(InvalidDigit)
    else if s[0] == '+' then AccumulateDigits(0, s[1..])
    else AccumulateDigits(0, s)
  }

  /** Two digit characters parse to the two-digit number they spell. */
  lemma ParseTwoDigits(a: char, b: char)
    requires IsDigit(a) && IsDigit(b)
    ensures ParseU32([a, b]) == Ok(10 * ToDigit(a).value + ToDigit(b).value)
  {
    var da, db := ToDigit(a).value, ToDigit(b).value;
    assert [a, b][1..] == [b] && [b][1..] == [];
    assert AccumulateDigits(da, [b]) == AccumulateDigits(10 * da + db, []);
    assert AccumulateDigits(0, [a, b]) == AccumulateDigits(da, [b]);
  }

  /** A string that starts with a character other than a digit or a sign does not parse. */
  lemma ParseRejectsNonDigit(s: string)
    requires s != [] && !IsDigit(s[0]) && s[0] != '+'
    ensures ParseU32(s) == Err(InvalidDigit)
  {
  }
}
