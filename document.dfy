/**
 * A whole calibration document: its lines rewritten, joined back into text,
 * split again and calibrated.
 */
module Document {
  import opened Wrappers
  import opened RustStd
  import opened DigitWords
  import opened LineCalibration

  /** Each line rewritten on its own, in order. */
  ghost function RewriteAll(m: map<string, nat>, ls: seq<string>): (rs: seq<string>)
    requires WellFormed(m)
    ensures |rs| == |ls|
    ensures forall k :: 0 <= k < |ls| ==> rs[k] == Rewrite(m, ls[k])
    decreases |ls|
  {
    if ls == [] then [] else RewriteAll(m, ls[..|ls| - 1]) + [Rewrite(m, ls[|ls| - 1])]
  }

  /** Rewriting one more line appends its rewrite. */
  lemma RewriteAllSnoc(m: map<string, nat>, ls: seq<string>, i: nat)
    requires WellFormed(m) && i < |ls|
    ensures RewriteAll(m, ls[..i + 1]) == RewriteAll(m, ls[..i]) + [Rewrite(m, ls[i])]
  {
    assert ls[..i + 1][..i] == ls[..i];
  }

  /**
   * After the line at `i` has been rewritten and appended with its '\n', the
   * text built so far is the formatted text of the lines up to and including it.
   */
  lemma FormattedThrough(m: map<string, nat>, ls: seq<string>, i: nat, before: string, after: string)
    requires WellFormed(m) && i < |ls|
    requires before == Joined(RewriteAll(m, ls[..i]))
    requires after == before + (Rewrite(m, ls[i]) + "\n")
    ensures after == Joined(RewriteAll(m, ls[..i + 1]))
  {
    RewriteAllSnoc(m, ls, i);
    JoinedSnoc(RewriteAll(m, ls[..i]), Rewrite(m, ls[i]));
    Regroup(before, Rewrite(m, ls[i]), "\n", after);
  }

  /** The text `format_data` builds from `doc`: every line rewritten and ended by '\n'. */
  ghost function FormattedText(m: map<string, nat>, doc: string): (r: string)
    requires WellFormed(m)
    ensures r == [] <==> Lines(doc) == []
    ensures Lines(doc) != [] ==> r[|r| - 1] == '\n'
  {
    Joined(RewriteAll(m, Lines(doc)))
  }

  /** The calibration values of the rewritten lines of `doc`, in line order. */
  ghost function DocumentCalibrations(m: map<string, nat>, doc: string): (vs: seq<nat>)
    requires WellFormed(m)
    ensures |vs| <= |Lines(doc)|
  {
    Calibrations(RewriteAll(m, Lines(doc)))
  }

  /**
   * Splitting the formatted text into lines again gives back the rewritten
   * lines of the document, each less a trailing '\r': the '\n' that follows
   * it turns it into a "\r\n" ending.
   */
  lemma LinesOfFormattedText(m: map<string, nat>, doc: string)
    requires WellFormed(m)
    ensures Lines(FormattedText(m, doc)) == StripCRs(RewriteAll(m, Lines(doc)))
  {
    var ls := Lines(doc);
    var rs := RewriteAll(m, ls);
    forall k | 0 <= k < |rs|
      ensures '\n' !in rs[k]
    {
      assert rs[k] == Rewrite(m, ls[k]) && '\n' !in ls[k];
    }
    LinesOfJoined(rs);
  }

  /**
   * The '\r' that re-splitting may drop changes no value, so the values
   * calibrated from the formatted text are those of the rewritten lines of
   * the document.
   */
  lemma CalibrationsOfFormattedText(m: map<string, nat>, doc: string)
    requires WellFormed(m)
    ensures Calibrations(Lines(FormattedText(m, doc))) == DocumentCalibrations(m, doc)
  {
    LinesOfFormattedText(m, doc);
    CalibrationsIgnoreCR(RewriteAll(m, Lines(doc)));
  }

  /** A document of n lines totals at most 99 * n. */
  lemma DocumentTotalBound(m: map<string, nat>, doc: string)
    requires WellFormed(m)
    ensures Sum(DocumentCalibrations(m, doc)) <= 99 * |Lines(doc)|
  {
    SumBound(DocumentCalibrations(m, doc));
  }

  /** "two1nine" becomes "219" and calibrates to 29. */
  lemma CalibrateTwo1nine()
    ensures WellFormed(WordTable()) && CalibrationValue(Rewrite(WordTable(), "two1nine")) == Some(29)
  {
    RewriteTwo1nine();
    RewrittenExamples();
  }

  /** "eightwothree" becomes "8wo3" and calibrates to 83. */
  lemma CalibrateEightwothree()
    ensures WellFormed(WordTable()) && CalibrationValue(Rewrite(WordTable(), "eightwothree")) == Some(83)
  {
    RewriteEightwothree();
    RewrittenExamples();
  }

  /**
   * "eightwo" becomes "8wo": the greedy rewrite consumes the 't' of "two",
   * so the line calibrates to 88 and not 82.
   */
  lemma CalibrateEightwo()
    ensures WellFormed(WordTable()) && CalibrationValue(Rewrite(WordTable(), "eightwo")) == Some(88)
  {
    RewriteEightwo();
    RewrittenExamples();
  }

  /**
   * A line in which no two neighbouring characters begin a table word keeps
   * its calibration value through the rewrite.
   */
  lemma CalibrateWordless(l: string, v: nat)
    requires NoWordHeads(l) && CalibrationValue(l) == Some(v)
    ensures WellFormed(WordTable()) && CalibrationValue(Rewrite(WordTable(), l)) == Some(v)
  {
    WordTableWellFormed();
    WordTableHeads();
    RewriteWithoutHeads(WordTable(), l);
  }

  /** The six lines of the worked example document. */
  const ExampleLines: seq<string> :=
    ["1abc2", "pqr3stu8vwx", "a1b2c3d4e5f", "treb7uchet", "two1nine", "eightwothree"]

  lemma Headless1abc2()
    ensures NoWordHeads("1abc2")
  {
    var s := "1abc2";
    assert NoWordHeads(s[3..]);
    assert NoWordHeads(s[2..]);
    assert NoWordHeads(s[1..]);
    assert s[0..] == s;
  }

  /** "1abc2" holds no word and calibrates to 12. */
  lemma Calibrate1abc2()
    ensures WellFormed(WordTable()) && CalibrationValue(Rewrite(WordTable(), "1abc2")) == Some(12)
  {
    Headless1abc2();
    CalibrateExampleEnds();
    CalibrateWordless("1abc2", 12);
  }

  lemma HeadlessPqr3stu8vwx()
    ensures NoWordHeads("pqr3stu8vwx")
  {
    var s := "pqr3stu8vwx";
    assert NoWordHeads(s[9..]);
    assert NoWordHeads(s[8..]);
    assert NoWordHeads(s[7..]);
    assert NoWordHeads(s[6..]);
    assert NoWordHeads(s[5..]);
    assert NoWordHeads(s[4..]);
    assert NoWordHeads(s[3..]);
    assert NoWordHeads(s[2..]);
    assert NoWordHeads(s[1..]);
    assert s[0..] == s;
  }

  /** "pqr3stu8vwx" holds no word and calibrates to 38. */
  lemma CalibratePqr3stu8vwx()
    ensures WellFormed(WordTable()) && CalibrationValue(Rewrite(WordTable(), "pqr3stu8vwx")) == Some(38)
  {
    HeadlessPqr3stu8vwx();
    CalibrateExampleTwoDigits();
    CalibrateWordless("pqr3stu8vwx", 38);
  }

  lemma HeadlessA1b2c3d4e5f()
    ensures NoWordHeads("a1b2c3d4e5f")
  {
    var s := "a1b2c3d4e5f";
    assert NoWordHeads(s[9..]);
    assert NoWordHeads(s[8..]);
    assert NoWordHeads(s[7..]);
    assert NoWordHeads(s[6..]);
    assert NoWordHeads(s[5..]);
    assert NoWordHeads(s[4..]);
    assert NoWordHeads(s[3..]);
    assert NoWordHeads(s[2..]);
    assert NoWordHeads(s[1..]);
    assert s[0..] == s;
  }

  /** "a1b2c3d4e5f" holds no word and calibrates to 15. */
  lemma CalibrateA1b2c3d4e5f()
    ensures WellFormed(WordTable()) && CalibrationValue(Rewrite(WordTable(), "a1b2c3d4e5f")) == Some(15)
  {
    HeadlessA1b2c3d4e5f();
    CalibrateExampleManyDigits();
    CalibrateWordless("a1b2c3d4e5f", 15);
  }

  lemma HeadlessTreb7uchet()
    ensures NoWordHeads("treb7uchet")
  {
    var s := "treb7uchet";
    assert NoWordHeads(s[8..]);
    assert NoWordHeads(s[7..]);
    assert NoWordHeads(s[6..]);
    assert NoWordHeads(s[5..]);
    assert NoWordHeads(s[4..]);
    assert NoWordHeads(s[3..]);
    assert NoWordHeads(s[2..]);
    assert NoWordHeads(s[1..]);
    assert s[0..] == s;
  }

  /** "treb7uchet" holds no word and calibrates to 77. */
  lemma CalibrateTreb7uchet()
    ensures WellFormed(WordTable()) && CalibrationValue(Rewrite(WordTable(), "treb7uchet")) == Some(77)
  {
    HeadlessTreb7uchet();
    CalibrateExampleOneDigit();
    CalibrateWordless("treb7uchet", 77);
  }

  /**
   * A document written as its lines, each ended by '\n' and holding no '\r'
   * of its own, calibrates line by line to the values of those lines after
   * the rewrite.
   */
  lemma DocumentOfLines(m: map<string, nat>, ls: seq<string>, vs: seq<nat>)
    requires WellFormed(m) && |ls| == |vs|
    requires forall k :: 0 <= k < |ls| ==> '\n' !in ls[k] && StripCR(ls[k]) == ls[k]
    requires forall k :: 0 <= k < |ls| ==> CalibrationValue(Rewrite(m, ls[k])) == Some(vs[k])
    ensures DocumentCalibrations(m, Joined(ls)) == vs
  {
    LinesOfJoined(ls);
    StripCRsKeep(ls);
    var rs := RewriteAll(m, ls);
    CalibrationsOfDigitLines(rs);
  }

  /** The example lines hold neither '\n' nor a trailing '\r'. */
  lemma ExampleLinesPlain()
    ensures forall k :: 0 <= k < |ExampleLines| ==> '\n' !in ExampleLines[k] && StripCR(ExampleLines[k]) == ExampleLines[k]
  {
  }

  /** After the rewrite, each example line calibrates to its expected value. */
  lemma ExampleLineValues()
    ensures WellFormed(WordTable()) && |ExampleLines| == |ExampleValues|
    ensures forall k :: 0 <= k < |ExampleLines| ==>
      CalibrationValue(Rewrite(WordTable(), ExampleLines[k])) == Some(ExampleValues[k])
  {
    WordTableWellFormed();
    forall k | 0 <= k < |ExampleLines|
      ensures CalibrationValue(Rewrite(WordTable(), ExampleLines[k])) == Some(ExampleValues[k])
    {
      if k == 0 { Calibrate1abc2(); }
      else if k == 1 { CalibratePqr3stu8vwx(); }
      else if k == 2 { CalibrateA1b2c3d4e5f(); }
      else if k == 3 { CalibrateTreb7uchet(); }
      else if k == 4 { CalibrateTwo1nine(); }
      else { CalibrateEightwothree(); }
    }
  }

  /** The values the worked example expects, line by line. */
  const ExampleValues: seq<nat> := [12, 38, 15, 77, 29, 83]

  /**
   * Worked example: the document made of the six example lines calibrates
   * to 12, 38, 15, 77, 29 and 83, for a total of 254.
   */
  lemma ExampleDocumentTotal()
    ensures WellFormed(WordTable())
    ensures DocumentCalibrations(WordTable(), Joined(ExampleLines)) == ExampleValues
    ensures Sum(DocumentCalibrations(WordTable(), Joined(ExampleLines))) == 254
  {
    ExampleLineValues();
    ExampleLinesPlain();
    DocumentOfLines(WordTable(), ExampleLines, ExampleValues);
    ExampleSum();
  }

  lemma ExampleSum()
    ensures Sum(ExampleValues) == 254
  {
    var vs := ExampleValues;
    assert Sum(vs[..1]) == 12 by { assert vs[..1][..0] == []; }
    assert Sum(vs[..2]) == 50 by { assert vs[..2][..1] == vs[..1]; }
    assert Sum(vs[..3]) == 65 by { assert vs[..3][..2] == vs[..2]; }
    assert Sum(vs[..4]) == 142 by { assert vs[..4][..3] == vs[..3]; }
    assert Sum(vs[..5]) == 171 by { assert vs[..5][..4] == vs[..4]; }
    assert vs[..6] == vs;
    assert vs[..6][..5] == vs[..5];
  }
}
