/**
 * The calibration value of one line: its leftmost and rightmost digit read
 * as a two-digit number, and the values a sequence of lines contributes.
 */
module LineCalibration {
  import opened Wrappers
  import opened RustStd

  /** Position of the leftmost digit of `s`, if any. */
  function FirstDigitAt(s: string): (r: Option<nat>)
    ensures r.Some? ==> r.value < |s| && IsDigit(s[r.value])
    ensures r.Some? ==> forall k :: 0 <= k < r.value ==> !IsDigit(s[k])
    ensures r.None? ==> forall k :: 0 <= k < |s| ==> !IsDigit(s[k])
  {
    if s == [] then None
    else if IsDigit(s[0]) then Some(0)
    else match FirstDigitAt(s[1..])
      case None => None
      case Some(i) => Some(i + 1)
  }

  /** Position of the rightmost digit of `s`, if any. */
  function LastDigitAt(s: string): (r: Option<nat>)
    ensures r.Some? ==> r.value < |s| && IsDigit(s[r.value])
    ensures r.Some? ==> forall k :: r.value < k < |s| ==> !IsDigit(s[k])
    ensures r.None? ==> forall k :: 0 <= k < |s| ==> !IsDigit(s[k])
  {
    if s == [] then None
    else if IsDigit(s[|s| - 1]) then Some(|s| - 1)
    else LastDigitAt(s[..|s| - 1])
  }

  /** Value of a digit character. */
  function DigitValue(c: char): (d: nat)
    requires IsDigit(c)
    ensures d < 10 && ToDigit(c) == Some(d)
  {
    ToDigit(c).value
  }

  /**
   * Ten times the leftmost digit plus the rightmost digit; nothing for a
   * line without digits.
   */
  function CalibrationValue(s: string): (r: Option<nat>)
    ensures r.Some? <==> exists k :: 0 <= k < |s| && IsDigit(s[k])
    ensures r.Some? ==> r.value <= 99
  {
    match (FirstDigitAt(s), LastDigitAt(s))
    case (Some(i), Some(j)) => Some(10 * DigitValue(s[i]) + DigitValue(s[j]))
    case _ => None
  }

  /**
   * The calibration value is fixed by the leftmost digit at `i` and the
   * rightmost digit at `j`.
   */
  lemma CalibrationFromEnds(s: string, i: nat, j: nat)
    requires i <= j < |s| && IsDigit(s[i]) && IsDigit(s[j])
    requires forall k :: 0 <= k < i ==> !IsDigit(s[k])
    requires forall k :: j < k < |s| ==> !IsDigit(s[k])
    ensures CalibrationValue(s) == Some(10 * DigitValue(s[i]) + DigitValue(s[j]))
  {
    var f, l := FirstDigitAt(s), LastDigitAt(s);
    assert f.Some? && l.Some?;
    assert f.value == i by {
      assert !(f.value < i);
      assert !(i < f.value);
    }
    assert l.value == j by {
      assert !(l.value < j);
      assert !(j < l.value);
    }
  }

  /** A line with a single digit `d` calibrates to `11 * d`. */
  lemma CalibrationOfSingleDigit(s: string, i: nat)
    requires i < |s| && IsDigit(s[i])
    requires forall k :: 0 <= k < |s| && k != i ==> !IsDigit(s[k])
    ensures CalibrationValue(s) == Some(11 * DigitValue(s[i]))
  {
    CalibrationFromEnds(s, i, i);
  }

  /**
   * Removing characters that are not digits from the end of a line does not
   * change its calibration value.
   */
  lemma CalibrationIgnoresTail(s: string, n: nat)
    requires n <= |s|
    requires forall k :: n <= k < |s| ==> !IsDigit(s[k])
    ensures CalibrationValue(s[..n]) == CalibrationValue(s)
  {
    var t := s[..n];
    match FirstDigitAt(s)
    case None =>
    case Some(i) =>
      var j := LastDigitAt(s).value;
      assert t[i] == s[i] && t[j] == s[j];
      CalibrationFromEnds(t, i, j);
      CalibrationFromEnds(s, i, j);
  }

  /** Removing the '\r' of a line ending keeps the calibration value. */
  lemma CalibrationIgnoresCR(l: string)
    ensures CalibrationValue(StripCR(l)) == CalibrationValue(l)
  {
    if StripCR(l) != l {
      CalibrationIgnoresTail(l, |l| - 1);
    }
  }

  /** The values a line contributes: its calibration value if it has one. */
  function Kept(l: string): (vs: seq<nat>)
    ensures |vs| <= 1
  {
    match CalibrationValue(l)
    case Some(v) => [v]
    case None => []
  }

  /**
   * The calibration values of the lines that have one, in line order;
   * lines without a digit contribute nothing.
   */
  function Calibrations(ls: seq<string>): (vs: seq<nat>)
    ensures |vs| <= |ls|
    ensures forall k :: 0 <= k < |vs| ==> vs[k] <= 99
  {
    if ls == [] then []
    else Calibrations(ls[..|ls| - 1]) + Kept(ls[|ls| - 1])
  }

  /** Calibrating two runs of lines one after the other appends their values in order. */
  lemma {:induction false} CalibrationsAppend(a: seq<string>, b: seq<string>)
    ensures Calibrations(a + b) == Calibrations(a) + Calibrations(b)
    decreases |b|
  {
    if b == [] {
      assert a + b == a;
    } else {
      var b' := b[..|b| - 1];
      assert (a + b)[..|a + b| - 1] == a + b';
      CalibrationsAppend(a, b');
    }
  }

  /** Calibrating one more line of a document appends what that line contributes. */
  lemma CalibrationsPrefix(ls: seq<string>, i: nat)
    requires i < |ls|
    ensures Calibrations(ls[..i + 1]) == Calibrations(ls[..i]) + Kept(ls[i])
  {
    assert ls[..i + 1][..i] == ls[..i];
  }

  /**
   * What a line contributes, read off the outcome of calibrating it: the
   * value when there is one, nothing otherwise.
   */
  lemma KeptOutcome(l: string, r: Result<nat, IntErrorKind>)
    requires CalibrationValue(l).Some? ==> r == Ok(CalibrationValue(l).value)
    requires CalibrationValue(l).None? ==> r.Err?
    ensures Kept(l) == (if r.Ok? then [r.value] else [])
  {
  }

  /**
   * After the line at `i` has contributed its values, the collected values
   * are those of the lines up to and including it.
   */
  lemma CalibratedThrough(start: seq<nat>, ls: seq<string>, i: nat, before: seq<nat>, after: seq<nat>)
    requires i < |ls|
    requires before == start + Calibrations(ls[..i])
    requires after == before + Kept(ls[i])
    ensures after == start + Calibrations(ls[..i + 1])
  {
    CalibrationsPrefix(ls, i);
    assert after == start + (Calibrations(ls[..i]) + Kept(ls[i]));
  }

  /**
   * Two runs of values of at most two digits make one such run: a fact about
   * indexing into a concatenation, stated apart for the loop proofs that use it.
   */
  lemma TwoDigitAppend(a: seq<nat>, b: seq<nat>)
    requires forall k :: 0 <= k < |a| ==> a[k] <= 99
    requires forall k :: 0 <= k < |b| ==> b[k] <= 99
    ensures forall k :: 0 <= k < |a + b| ==> (a + b)[k] <= 99
  {
  }

  /** When every line has a digit, each line contributes exactly its own value. */
  lemma {:induction false} CalibrationsOfDigitLines(ls: seq<string>)
    requires forall k :: 0 <= k < |ls| ==> CalibrationValue(ls[k]).Some?
    ensures |Calibrations(ls)| == |ls|
    ensures forall k :: 0 <= k < |ls| ==> Calibrations(ls)[k] == CalibrationValue(ls[k]).value
  {
    if ls != [] {
      var n := |ls| - 1;
      var init := ls[..n];
      CalibrationsOfDigitLines(init);
      var vs := Calibrations(init);
      assert Calibrations(ls) == vs + [CalibrationValue(ls[n]).value];
      forall k | 0 <= k < |ls|
        ensures Calibrations(ls)[k] == CalibrationValue(ls[k]).value
      {
        if k < n {
          assert init[k] == ls[k];
        }
      }
    }
  }

  /** A single line contributes what it keeps, and a '\r' dropped from it changes nothing. */
  lemma CalibrationsOfOne(l: string)
    ensures Calibrations([l]) == Kept(l)
    ensures Calibrations([StripCR(l)]) == Kept(l)
  {
    assert [l][..0] == [];
    assert [StripCR(l)][..0] == [];
    CalibrationIgnoresCR(l);
  }

  /** Dropping the '\r' of "\r\n" endings changes none of the values of a document. */
  lemma {:induction false} CalibrationsIgnoreCR(ls: seq<string>)
    ensures Calibrations(StripCRs(ls)) == Calibrations(ls)
  {
    if ls != [] {
      var x, t := ls[0], ls[1..];
      assert [x] + t == ls;
      CalibrationsIgnoreCR(t);
      CalibrationsOfOne(x);
      CalibrationsAppend([StripCR(x)], StripCRs(t));
      CalibrationsAppend([x], t);
    }
  }


  /**
   * Sum of a sequence of values: no value exceeds it, and it is zero
   * exactly when every value is.
   */
  function Sum(vs: seq<nat>): (s: nat)
    ensures forall k :: 0 <= k < |vs| ==> vs[k] <= s
    ensures s == 0 <==> forall k :: 0 <= k < |vs| ==> vs[k] == 0
  {
    if vs == [] then 0 else Sum(vs[..|vs| - 1]) + vs[|vs| - 1]
  }

  /** Values of at most 99 each sum to at most 99 times their count. */
  lemma {:induction false} SumBound(vs: seq<nat>)
    requires forall k :: 0 <= k < |vs| ==> vs[k] <= 99
    ensures Sum(vs) <= 99 * |vs|
  {
    if vs != [] {
      SumBound(vs[..|vs| - 1]);
    }
  }

  lemma {:induction false} SumAppend(a: seq<nat>, b: seq<nat>)
    ensures Sum(a + b) == Sum(a) + Sum(b)
    decreases |b|
  {
    if b == [] {
      assert a + b == a;
    } else {
      assert (a + b)[..|a + b| - 1] == a + b[..|b| - 1];
      SumAppend(a, b[..|b| - 1]);
    }
  }

  /** Worked example: the digits of "pqr3stu8vwx" are 3 and 8, so it calibrates to 38. */
  lemma CalibrateExampleTwoDigits()
    ensures CalibrationValue("pqr3stu8vwx") == Some(38)
  {
    var s := "pqr3stu8vwx";
    assert IsDigit(s[3]) && IsDigit(s[7]);
    assert forall k :: 0 <= k < 3 ==> !IsDigit(s[k]);
    assert forall k :: 7 < k < |s| ==> !IsDigit(s[k]);
    CalibrationFromEnds(s, 3, 7);
  }

  /** Worked example: "1abc2" starts and ends with a digit, so it calibrates to 12. */
  lemma CalibrateExampleEnds()
    ensures CalibrationValue("1abc2") == Some(12)
  {
    var s := "1abc2";
    assert IsDigit(s[0]) && IsDigit(s[4]);
    CalibrationFromEnds(s, 0, 4);
  }

  /** Worked example: only the outer digits of "a1b2c3d4e5f" count, so it calibrates to 15. */
  lemma CalibrateExampleManyDigits()
    ensures CalibrationValue("a1b2c3d4e5f") == Some(15)
  {
    var s := "a1b2c3d4e5f";
    assert IsDigit(s[1]) && IsDigit(s[9]) && !IsDigit(s[0]) && !IsDigit(s[10]);
    CalibrationFromEnds(s, 1, 9);
  }

  /** Worked example: the one digit of "treb7uchet" is both first and last, so it calibrates to 77. */
  lemma CalibrateExampleOneDigit()
    ensures CalibrationValue("treb7uchet") == Some(77)
  {
    var t := "treb7uchet";
    assert IsDigit(t[4]);
    assert forall k :: 0 <= k < |t| && k != 4 ==> !IsDigit(t[k]);
    CalibrationOfSingleDigit(t, 4);
  }

  /** The rewritten example lines "219", "8wo3" and "8wo" calibrate to 29, 83 and 88. */
  lemma RewrittenExamples()
    ensures CalibrationValue("219") == Some(29)
    ensures CalibrationValue("8wo3") == Some(83)
    ensures CalibrationValue("8wo") == Some(88)
  {
    var a := "219";
    assert IsDigit(a[0]) && IsDigit(a[2]);
    CalibrationFromEnds(a, 0, 2);
    var b := "8wo3";
    assert IsDigit(b[0]) && IsDigit(b[3]);
    CalibrationFromEnds(b, 0, 3);
    var c := "8wo";
    assert IsDigit(c[0]);
    assert forall k :: 0 <= k < |c| && k != 0 ==> !IsDigit(c[k]);
    CalibrationOfSingleDigit(c, 0);
  }
}
