/**
 * The `Trebuchet` calibrator: it holds a calibration document, rewrites
 * spelled-out digits in it, extracts one two-digit value per line and sums
 * the values.
 */
module Day1 {
  import opened Wrappers
  import opened RustStd
  import opened DigitWords
  import opened LineCalibration
  import opened Document

  class Trebuchet {
    /** Where the document is read from; reading it is outside this model. */
    const calibrationPath: string
    /** The document, once read; `FormatData` replaces it by its rewritten form. */
    var data: Option<string>
    /** The calibration values collected so far, in the order they were found. */
    var calibratedData: seq<nat>
    /** The spelled-out digits and their values. */
    const words: map<string, nat>

    /** The word table is well formed and every collected value has two digits at most. */
    ghost predicate Valid()
      reads this
    {
      WellFormed(words) && forall k :: 0 <= k < |calibratedData| ==> calibratedData[k] <= 99
    }

    /** A calibrator with no document, no values and the nine digit words. */
    constructor(calibrationPath: string)
      ensures Valid()
      ensures this.calibrationPath == calibrationPath
      ensures data == None && calibratedData == [] && words == WordTable()
    {
      this.calibrationPath := calibrationPath;
      data := None;
      calibratedData := [];
      words := WordTable();
      WordTableWellFormed();
    }

    /**
     * Rewrites one line greedily from left to right and ends it with '\n'.
     * At each position of the line the cursor `sliceStart` either skips a word
     * found there, after emitting its digit, or, once `index` has caught up
     * with it, copies one character.
     */
    method FormatLine(line: string) returns (newLine: string)
      requires WellFormed(words)
      ensures newLine == Rewrite(words, line) + "\n"
    {
      newLine := "";
      var sliceStart := 0;
      for index := 0 to |line|
        invariant index <= sliceStart <= |line|
        invariant RewrittenUpTo(words, line, sliceStart, newLine)
      {
        var found, word := FindWord(line[sliceStart..]);
        if found {
          ghost var pos, done := sliceStart, newLine;
          newLine := newLine + DigitString(words[word]);
          sliceStart := sliceStart + |word|;
          AdvanceWord(words, line, pos, done, word, sliceStart, newLine);
        }
        if sliceStart <= index {
          // a word found at the cursor has moved it past `index`
          assert !found;
          if !found {
            ghost var done := newLine;
            newLine := newLine + [line[sliceStart]];
            AdvanceChar(words, line, sliceStart, done, sliceStart + 1, newLine);
          }
          sliceStart := sliceStart + 1;
        }
      }
      RewrittenAll(words, line, newLine);
      newLine := newLine + "\n";
    }

    /**
     * Looks for a word of the table at the start of `sub`, trying the words in
     * whatever order the hash map yields them. At most one word can match, so
     * the outcome does not depend on that order.
     */
    method FindWord(sub: string) returns (found: bool, word: string)
      requires WellFormed(words)
      ensures found ==> word in words && word <= sub
      ensures found ==> forall w :: w in words && w <= sub ==> w == word
      ensures !found ==> NoneStartsExcept(words.Keys, {}, sub)
    {
      found, word := false, "";
      var remaining := words.Keys;
      while remaining != {}
        invariant remaining <= words.Keys
        invariant NoneStartsExcept(words.Keys, remaining, sub)
        decreases |remaining|
      {
        var w :| w in remaining;
        if w <= sub {
          found, word := true, w;
          forall v | v in words && v <= sub
            ensures v == word
          {
            MatchUnique(words, sub, v, word);
          }
          return;
        }
        NoneStartsAdd(words.Keys, remaining, w, sub);
        remaining := remaining - {w};
      }
    }

    /**
     * Replaces the document by the concatenation of its rewritten lines; with
     * no document it stores the empty text.
     */
    method FormatData()
      requires Valid()
      modifies this`data
      ensures Valid()
      ensures data == Some(if old(data).Some? then FormattedText(words, old(data).value) else "")
    {
      var newData := "";
      match data {
        case Some(d) =>
          newData := FormatLines(Lines(d));
        case None =>
      }
      data := Some(newData);
    }

    /** Rewrites every line and concatenates the results, each ended by '\n'. */
    method FormatLines(ls: seq<string>) returns (newData: string)
      requires WellFormed(words)
      ensures newData == Joined(RewriteAll(words, ls))
    {
      newData := "";
      for i := 0 to |ls|
        invariant newData == Joined(RewriteAll(words, ls[..i]))
      {
        var newLine := FormatLine(ls[i]);
        ghost var before := newData;
        newData := newData + newLine;
        FormattedThrough(words, ls, i, before, newData);
      }
      assert ls[..|ls|] == ls;
    }

    /**
     * Appends the calibration value of every line of the document that has
     * one, in line order, after the values already collected.
     */
    method CalibrateData()
      requires Valid()
      modifies this`calibratedData
      ensures Valid()
      ensures calibratedData == old(calibratedData) + (if data.Some? then Calibrations(Lines(data.value)) else [])
    {
      match data {
        case Some(d) =>
          CalibrateLines(Lines(d));
        case None =>
      }
    }

    /** Pushes the calibration value of each line that has one, in order. */
    method CalibrateLines(ls: seq<string>)
      requires Valid()
      modifies this`calibratedData
      ensures Valid()
      ensures calibratedData == old(calibratedData) + Calibrations(ls)
    {
      for i := 0 to |ls|
        invariant calibratedData == old(calibratedData) + Calibrations(ls[..i])
      {
        var r := CalibrateValue(ls[i]);
        ghost var before := calibratedData;
        match r {
          case Ok(val) => calibratedData := calibratedData + [val];
          case Err(_) =>
        }
        KeptOutcome(ls[i], r);
        assert calibratedData == before + Kept(ls[i]);
        CalibratedThrough(old(calibratedData), ls, i, before, calibratedData);
      }
      assert ls[..|ls|] == ls;
      TwoDigitAppend(old(calibratedData), Calibrations(ls));
    }

    /**
     * Keeps the first and the last digit of a line and parses the two of them
     * as a number; a line without a digit leaves both as '\0', which does not
     * parse.
     */
    method CalibrateValue(line: string) returns (r: Result<nat, IntErrorKind>)
      ensures CalibrationValue(line).Some? ==> r == Ok(CalibrationValue(line).value)
      ensures CalibrationValue(line).None? ==> r == Err(InvalidDigit)
    {
      var first := '\0';
      var last := '\0';
      ghost var firstAt := -1;
      ghost var lastAt := -1;
      for i := 0 to |line|
        invariant -1 <= firstAt <= lastAt < i
        invariant firstAt == -1 <==> lastAt == -1
        invariant firstAt == -1 ==> first == '\0' && last == '\0'
        invariant firstAt == -1 ==> forall k :: 0 <= k < i ==> !IsDigit(line[k])
        invariant firstAt >= 0 ==> IsDigit(line[firstAt]) && first == line[firstAt]
        invariant firstAt >= 0 ==> IsDigit(line[lastAt]) && last == line[lastAt]
        invariant firstAt >= 0 ==> forall k :: 0 <= k < firstAt ==> !IsDigit(line[k])
        invariant firstAt >= 0 ==> forall k :: lastAt < k < i ==> !IsDigit(line[k])
      {
        var c := line[i];
        match ToDigit(c) {
          case Some(_) =>
            if first == '\0' {
              first := c;
              firstAt := i;
            }
            last := c;
            lastAt := i;
          case None =>
        }
      }
      var resString := [first, last];
      r := ParseU32(resString);
      if firstAt >= 0 {
        ParseTwoDigits(first, last);
        CalibrationFromEnds(line, firstAt, lastAt);
      } else {
        ParseRejectsNonDigit(resString);
      }
    }

    /** The total of the collected calibration values. */
    method GetCalibratedResult() returns (sum: nat)
      requires Valid()
      ensures sum == Sum(calibratedData)
      ensures sum <= 99 * |calibratedData|
    {
      sum := 0;
      for i := 0 to |calibratedData|
        invariant sum == Sum(calibratedData[..i])
      {
        assert calibratedData[..i + 1][..i] == calibratedData[..i];
        sum := sum + calibratedData[i];
      }
      assert calibratedData[..|calibratedData|] == calibratedData;
      SumBound(calibratedData);
    }

    /**
     * The whole run on what reading the document produced: `None` stands for
     * a read that failed, which stops the run before anything changes;
     * otherwise the document is stored, rewritten, calibrated and totalled.
     */
    method RunCalibration(read: Option<string>) returns (total: Option<nat>)
      requires Valid()
      modifies this`data, this`calibratedData
      ensures Valid()
      ensures read.None? ==> total == None && data == old(data) && calibratedData == old(calibratedData)
      ensures read.Some? ==> data == Some(FormattedText(words, read.value))
      ensures read.Some? ==> calibratedData == old(calibratedData) + DocumentCalibrations(words, read.value)
      ensures read.Some? ==> total.Some? && total.value == Sum(old(calibratedData)) + Sum(DocumentCalibrations(words, read.value))
    {
      if read.None? {
        return None;
      }
      var sum := CalibrateDocument(read.value);
      total := Some(sum);
    }

    /** Stores the document, rewrites it, calibrates it and totals the values. */
    method CalibrateDocument(content: string) returns (sum: nat)
      requires Valid()
      modifies this`data, this`calibratedData
      ensures Valid()
      ensures data == Some(FormattedText(words, content))
      ensures calibratedData == old(calibratedData) + DocumentCalibrations(words, content)
      ensures sum == Sum(old(calibratedData)) + Sum(DocumentCalibrations(words, content))
    {
      ghost var start, added := calibratedData, DocumentCalibrations(words, content);
      data := Some(content);
      FormatData();
      CalibrationsOfFormattedText(words, content);
      CalibrateData();
      assert calibratedData == start + added;
      sum := GetCalibratedResult();
      SumAppend(start, added);
    }
  }
}
