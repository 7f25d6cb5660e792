/**
 * The table of spelled-out digits and the greedy left-to-right rewrite that
 * replaces each table word by its digit.
 */
module DigitWords {
  import opened Wrappers
  import opened RustStd

  /** The words `Trebuchet::new` puts in its table; each maps to a digit from 1 to 9. */
  function WordTable(): (m: map<string, nat>)
    ensures forall w :: w in m ==> 1 <= m[w] <= 9
  {
    map[
      "one" := 1, "two" := 2, "three" := 3, "four" := 4, "five" := 5,
      "six" := 6, "seven" := 7, "eight" := 8, "nine" := 9]
  }

  /**
   * What the rewrite needs of a table: every word is non-empty and has no
   * digit in it, every value prints as one digit, and no word is a prefix
   * of another, so at most one word starts at any position.
   */
  ghost predicate WellFormed(m: map<string, nat>) {
    && (forall w :: w in m ==> w != [] && m[w] < 10)
    && (forall w :: w in m ==> forall i :: 0 <= i < |w| ==> !IsDigit(w[i]))
    && (forall u, v :: u in m && v in m && u != v ==> !(u <= v))
  }

  /** `u32::to_string` of a table value. */
  function DigitString(d: nat): (r: string)
    requires d < 10
    ensures |r| == 1 && IsDigit(r[0]) && ToDigit(r[0]) == Some(d)
  {
    [DigitChar(d)]
  }

  /** Two table words that both start `s` are the same word. */
  lemma MatchUnique(m: map<string, nat>, s: string, u: string, v: string)
    requires WellFormed(m)
    requires u in m && v in m && u <= s && v <= s
    ensures u == v
  {
    assert |u| <= |v| ==> u == v[..|u|];
    assert |v| <= |u| ==> v == u[..|v|];
  }

  lemma WordTableKeys()
    ensures WordTable().Keys == {"one", "two", "three", "four", "five", "six", "seven", "eight", "nine"}
  {
  }

  /** Whether `a` and `b` are the first two letters of a table word; no two words share them. */
  predicate WordHead(a: char, b: char) {
    || (a == 'o' && b == 'n')
    || (a == 't' && (b == 'w' || b == 'h'))
    || (a == 'f' && (b == 'o' || b == 'i'))
    || (a == 's' && (b == 'i' || b == 'e'))
    || (a == 'e' && b == 'i')
    || (a == 'n' && b == 'i')
  }

  /** The word table of `Trebuchet::new` meets `WellFormed`. */
  lemma WordTableWellFormed()
    ensures WellFormed(WordTable())
  {
    WordTableWords();
    WordTablePrefixFree();
  }

  lemma WordTableWords()
    ensures forall w :: w in WordTable() ==> w != [] && WordTable()[w] < 10
    ensures forall w :: w in WordTable() ==> forall i :: 0 <= i < |w| ==> !IsDigit(w[i])
  {
    WordTableHeads();
    WordTableLetters();
  }

  /** Every table word is written in lower-case letters. */
  lemma WordTableLetters()
    ensures forall w :: w in WordTable() ==> forall i :: 0 <= i < |w| ==> 'a' <= w[i] <= 'z'
  {
    WordTableKeys();
  }

  lemma WordTablePrefixFree()
    ensures forall u, v :: u in WordTable() && v in WordTable() && u != v ==> !(u <= v)
  {
    WordTableKeys();
    forall u, v | u in WordTable() && v in WordTable() && u != v
      ensures !(u <= v)
    {
      assert |u| >= 3 && |v| >= 3;
      assert u[0] != v[0] || u[1] != v[1];
    }
  }

  /** Every word of `m` has at least three letters and begins with a `WordHead`. */
  ghost predicate HeadsIn(m: map<string, nat>) {
    forall w :: w in m ==> |w| >= 3 && WordHead(w[0], w[1])
  }

  lemma WordTableHeads()
    ensures HeadsIn(WordTable())
  {
    WordTableKeys();
  }

  /** No word starts a text shorter than three or with a pair of letters no word starts with. */
  lemma NoWordStarts(m: map<string, nat>, s: string)
    requires HeadsIn(m)
    requires |s| < 3 || !WordHead(s[0], s[1])
    ensures forall w :: w in m ==> !(w <= s)
  {
    forall w | w in m
      ensures !(w <= s)
    {
      assert |w| >= 3;
      assert WordHead(w[0], w[1]);
    }
  }

  /**
   * The greedy rewrite: where a table word starts the text it becomes its
   * digit and the whole word is skipped; any other character is kept.
   */
  ghost function Rewrite(m: map<string, nat>, s: string): (r: string)
    requires WellFormed(m)
    ensures |r| <= |s|
    ensures forall c :: c in r ==> c in s || IsDigit(c)
    decreases |s|
  {
    if s == [] then []
    else if exists w :: w in m && w <= s then
      var w :| w in m && w <= s;
      DigitString(m[w]) + Rewrite(m, s[|w|..])
    else [s[0]] + Rewrite(m, s[1..])
  }

  /** Where table word `w` starts the text, the rewrite emits its digit and resumes after it. */
  lemma RewriteWord(m: map<string, nat>, s: string, w: string)
    requires WellFormed(m) && w in m && w <= s
    ensures Rewrite(m, s) == DigitString(m[w]) + Rewrite(m, s[|w|..])
  {
    var w' :| w' in m && w' <= s && Rewrite(m, s) == DigitString(m[w']) + Rewrite(m, s[|w'|..]);
    MatchUnique(m, s, w, w');
  }

  /** Where no table word starts the text, the rewrite keeps its first character. */
  lemma RewriteChar(m: map<string, nat>, s: string)
    requires WellFormed(m) && s != []
    requires forall w :: w in m ==> !(w <= s)
    ensures Rewrite(m, s) == [s[0]] + Rewrite(m, s[1..])
  {
  }

  /** A text in which no table word starts anywhere is left as it is. */
  lemma {:induction false} RewriteWithoutWords(m: map<string, nat>, s: string)
    requires WellFormed(m)
    requires forall i, w :: 0 <= i <= |s| && w in m ==> !(w <= s[i..])
    ensures Rewrite(m, s) == s
  {
    if s != [] {
      assert s[0..] == s;
      forall i, w | 0 <= i <= |s[1..]| && w in m
        ensures !(w <= s[1..][i..])
      {
        assert s[1..][i..] == s[i + 1..];
      }
      RewriteWithoutWords(m, s[1..]);
    }
  }

  /** No two neighbouring characters of `s` are the first two letters of a table word. */
  predicate NoWordHeads(s: string)
    decreases |s|
  {
    |s| < 2 || (!WordHead(s[0], s[1]) && NoWordHeads(s[1..]))
  }

  /**
   * A text in which no two neighbouring characters begin a table word is
   * left as it is.
   */
  lemma {:induction false} RewriteWithoutHeads(m: map<string, nat>, s: string)
    requires WellFormed(m) && HeadsIn(m) && NoWordHeads(s)
    ensures Rewrite(m, s) == s
    decreases |s|
  {
    if s != [] {
      NoWordStarts(m, s);
      RewriteChar(m, s);
      RewriteWithoutHeads(m, s[1..]);
      assert [s[0]] + s[1..] == s;
    }
  }

  /** `a` can be obtained from `b` by deleting characters. */
  ghost predicate Embeds(a: string, b: string)
    decreases |b|
  {
    if a == [] then true
    else if b == [] then false
    else (a[0] == b[0] && Embeds(a[1..], b[1..])) || Embeds(a, b[1..])
  }

  /** The literal digits of a text, in order. */
  function Digits(s: string): (r: string)
    ensures forall c :: c in r <==> c in s && IsDigit(c)
  {
    if s == [] then []
    else if IsDigit(s[0]) then [s[0]] + Digits(s[1..])
    else Digits(s[1..])
  }

  lemma {:induction false} DigitsSkipWord(w: string, t: string)
    requires forall i :: 0 <= i < |w| ==> !IsDigit(w[i])
    ensures Digits(w + t) == Digits(t)
  {
    if w != [] {
      assert !IsDigit(w[0]) && (w + t)[0] == w[0];
      assert (w + t)[1..] == w[1..] + t;
      assert Digits(w + t) == Digits(w[1..] + t);
      DigitsSkipWord(w[1..], t);
    } else {
      assert w + t == t;
    }
  }

  lemma EmbedsSkip(a: string, x: char, b: string)
    requires Embeds(a, b)
    ensures Embeds(a, [x] + b)
  {
    assert ([x] + b)[1..] == b;
  }

  lemma EmbedsKeep(x: char, a: string, b: string)
    requires Embeds(a, b)
    ensures Embeds([x] + a, [x] + b)
  {
    assert ([x] + a)[1..] == a && ([x] + b)[1..] == b;
  }

  /**
   * Every literal digit of the text survives the rewrite, in its original
   * order: table words hold no digits, so no digit is ever consumed.
   */
  lemma {:induction false} RewriteKeepsLiteralDigits(m: map<string, nat>, s: string)
    requires WellFormed(m)
    ensures Embeds(Digits(s), Rewrite(m, s))
    decreases |s|
  {
    if s != [] {
      if exists w :: w in m && w <= s {
        var w :| w in m && w <= s;
        RewriteKeepsLiteralDigits(m, s[|w|..]);
        KeepDigitsPastWord(m, s, w);
      } else {
        RewriteKeepsLiteralDigits(m, s[1..]);
        KeepDigitsPastChar(m, s);
      }
    }
  }

  /** A word at the start: its digit is inserted, and the word itself held no digit. */
  lemma KeepDigitsPastWord(m: map<string, nat>, s: string, w: string)
    requires WellFormed(m) && w in m && w <= s
    requires Embeds(Digits(s[|w|..]), Rewrite(m, s[|w|..]))
    ensures Embeds(Digits(s), Rewrite(m, s))
  {
    var rest := s[|w|..];
    RewriteWord(m, s, w);
    assert s == w + rest;
    DigitsSkipWord(w, rest);
    var d := DigitString(m[w]);
    assert d == [d[0]];
    EmbedsSkip(Digits(rest), d[0], Rewrite(m, rest));
  }

  /** No word at the start: the first character is kept, digit or not. */
  lemma KeepDigitsPastChar(m: map<string, nat>, s: string)
    requires WellFormed(m) && s != [] && forall w :: w in m ==> !(w <= s)
    requires Embeds(Digits(s[1..]), Rewrite(m, s[1..]))
    ensures Embeds(Digits(s), Rewrite(m, s))
  {
    var rest := s[1..];
    RewriteChar(m, s);
    if IsDigit(s[0]) {
      assert Digits(s) == [s[0]] + Digits(rest);
      EmbedsKeep(s[0], Digits(rest), Rewrite(m, rest));
    } else {
      assert Digits(s) == Digits(rest);
      EmbedsSkip(Digits(rest), s[0], Rewrite(m, rest));
    }
  }

  /** A table word `w` followed by the rest `t`: its digit, then the rewrite of `t`. */
  lemma RewriteWordThen(m: map<string, nat>, w: string, t: string, rt: string, s: string, r: string)
    requires WellFormed(m) && w in m && Rewrite(m, t) == rt
    requires s == w + t && r == DigitString(m[w]) + rt
    ensures Rewrite(m, s) == r
  {
    assert w <= s;
    RewriteWord(m, s, w);
    assert s[|w|..] == t;
  }

  /** A table word on its own rewrites to its digit. */
  lemma RewriteWordAlone(m: map<string, nat>, w: string)
    requires WellFormed(m) && w in m
    ensures Rewrite(m, w) == DigitString(m[w])
  {
    assert Rewrite(m, []) == [];
    assert w + [] == w && DigitString(m[w]) + [] == DigitString(m[w]);
    RewriteWordThen(m, w, [], [], w, DigitString(m[w]));
  }

  /**
   * A character `c` followed by `t`, where no word starts: kept, then the
   * rewrite of `t`.
   */
  lemma RewriteCharThen(m: map<string, nat>, c: char, t: string, rt: string, s: string, r: string)
    requires WellFormed(m) && HeadsIn(m) && Rewrite(m, t) == rt
    requires s == [c] + t && r == [c] + rt
    requires |s| < 3 || !WordHead(s[0], s[1])
    ensures Rewrite(m, s) == r
  {
    NoWordStarts(m, s);
    RewriteChar(m, s);
    assert s[1..] == t;
  }

  /**
   * The cursor of a left-to-right rewrite of `line`: `done` is the rewrite of
   * everything before `pos`, so what remains to emit is the rewrite of the rest.
   */
  ghost predicate RewrittenUpTo(m: map<string, nat>, line: string, pos: nat, done: string)
    requires WellFormed(m)
  {
    pos <= |line| && done + Rewrite(m, line[pos..]) == Rewrite(m, line)
  }

  /** Moving a piece of output from what remains to what is done. */
  lemma Regroup(done: string, piece: string, rest: string, whole: string)
    requires done + (piece + rest) == whole
    ensures (done + piece) + rest == whole
  {
    assert (done + piece) + rest == done + (piece + rest);
  }

  /** A word at the cursor: emit its digit and move the cursor to `next`, just past it. */
  lemma AdvanceWord(m: map<string, nat>, line: string, pos: nat, done: string, w: string, next: nat, emitted: string)
    requires WellFormed(m) && RewrittenUpTo(m, line, pos, done)
    requires w in m && w <= line[pos..]
    requires next == pos + |w| && emitted == done + DigitString(m[w])
    ensures next <= |line| && RewrittenUpTo(m, line, next, emitted)
  {
    RewriteWord(m, line[pos..], w);
    assert line[pos..][|w|..] == line[next..];
    Regroup(done, DigitString(m[w]), Rewrite(m, line[next..]), Rewrite(m, line));
  }

  /** None of the words in `keys`, apart from those still in `rest`, starts `s`. */
  ghost predicate NoneStartsExcept(keys: set<string>, rest: set<string>, s: string) {
    forall w :: w in keys && w !in rest ==> !(w <= s)
  }

  /** Ruling out one more word. */
  lemma NoneStartsAdd(keys: set<string>, rest: set<string>, w: string, s: string)
    requires NoneStartsExcept(keys, rest, s) && !(w <= s)
    ensures NoneStartsExcept(keys, rest - {w}, s)
  {
  }

  /** No word at the cursor: copy one character and move the cursor to `next`, just past it. */
  lemma AdvanceChar(m: map<string, nat>, line: string, pos: nat, done: string, next: nat, emitted: string)
    requires WellFormed(m) && RewrittenUpTo(m, line, pos, done) && pos < |line|
    requires NoneStartsExcept(m.Keys, {}, line[pos..])
    requires next == pos + 1 && emitted == done + [line[pos]]
    ensures RewrittenUpTo(m, line, next, emitted)
  {
    RewriteChar(m, line[pos..]);
    assert line[pos..][1..] == line[next..];
    Regroup(done, [line[pos]], Rewrite(m, line[next..]), Rewrite(m, line));
  }

  /** A cursor at the end of the line has emitted the whole rewrite. */
  lemma RewrittenAll(m: map<string, nat>, line: string, done: string)
    requires WellFormed(m) && RewrittenUpTo(m, line, |line|, done)
    ensures done == Rewrite(m, line)
  {
    assert line[|line|..] == [];
  }

  /**
   * How the example texts split into words and characters, and their
   * rewrites into digits and characters. These are facts about literal
   * strings only, stated apart so that the solver meets each of them once.
   */
  lemma SplitsTwone()
    ensures ['e'] + [] == "e" && ['n'] + "e" == "ne" && "two" + "ne" == "twone"
    ensures DigitString(2) + "ne" == "2ne"
  {
  }

  lemma SplitsOthree()
    ensures ['o'] + "three" == "othree" && ['o'] + DigitString(3) == "o3"
  {
  }

  lemma SplitsWothree()
    ensures ['w'] + "othree" == "wothree" && ['w'] + "o3" == "wo3"
  {
  }

  lemma SplitsEightwothree()
    ensures "eight" + "wothree" == "eightwothree" && DigitString(8) + "wo3" == "8wo3"
  {
  }

  lemma SplitsEightwo()
    ensures ['o'] + [] == "o" && ['w'] + "o" == "wo" && "eight" + "wo" == "eightwo"
    ensures DigitString(8) + "wo" == "8wo"
  {
  }

  lemma SplitsOnenine()
    ensures ['1'] + "nine" == "1nine" && ['1'] + DigitString(9) == "19"
  {
  }

  lemma SplitsTwo1nine()
    ensures "two" + "1nine" == "two1nine" && DigitString(2) + "19" == "219"
  {
  }

  /** Overlapping words: "two" is consumed, so the "one" sharing its 'o' is lost. */
  lemma RewriteTwoneIn(m: map<string, nat>)
    requires WellFormed(m) && "two" in m && m["two"] == 2
    requires HeadsIn(m)
    ensures Rewrite(m, "twone") == "2ne"
  {
    SplitsTwone();
    assert Rewrite(m, []) == [];
    RewriteCharThen(m, 'e', [], [], "e", "e");
    RewriteCharThen(m, 'n', "e", "e", "ne", "ne");
    RewriteWordThen(m, "two", "ne", "ne", "twone", "2ne");
  }

  /** "othree": a plain character, then "three". */
  lemma RewriteOthreeIn(m: map<string, nat>)
    requires WellFormed(m) && "three" in m && m["three"] == 3
    requires HeadsIn(m)
    ensures Rewrite(m, "othree") == "o3"
  {
    RewriteWordAlone(m, "three");
    SplitsOthree();
    RewriteCharThen(m, 'o', "three", DigitString(3), "othree", "o3");
  }

  /** "eightwothree": "eight" takes the 't' of "two", then "three" is found. */
  lemma RewriteEightwothreeIn(m: map<string, nat>)
    requires WellFormed(m) && "eight" in m && m["eight"] == 8 && "three" in m && m["three"] == 3
    requires HeadsIn(m)
    ensures Rewrite(m, "eightwothree") == "8wo3"
  {
    RewriteOthreeIn(m);
    SplitsWothree();
    RewriteCharThen(m, 'w', "othree", "o3", "wothree", "wo3");
    SplitsEightwothree();
    RewriteWordThen(m, "eight", "wothree", "wo3", "eightwothree", "8wo3");
  }

  /** "eightwo": "eight" takes the 't', so "two" is never seen. */
  lemma RewriteEightwoIn(m: map<string, nat>)
    requires WellFormed(m) && "eight" in m && m["eight"] == 8
    requires HeadsIn(m)
    ensures Rewrite(m, "eightwo") == "8wo"
  {
    SplitsEightwo();
    assert Rewrite(m, []) == [];
    RewriteCharThen(m, 'o', [], [], "o", "o");
    RewriteCharThen(m, 'w', "o", "o", "wo", "wo");
    RewriteWordThen(m, "eight", "wo", "wo", "eightwo", "8wo");
  }

  /** "two1nine": words on both sides of a literal digit. */
  lemma RewriteTwo1nineIn(m: map<string, nat>)
    requires WellFormed(m) && "two" in m && m["two"] == 2 && "nine" in m && m["nine"] == 9
    requires HeadsIn(m)
    ensures Rewrite(m, "two1nine") == "219"
  {
    RewriteWordAlone(m, "nine");
    SplitsOnenine();
    RewriteCharThen(m, '1', "nine", DigitString(9), "1nine", "19");
    SplitsTwo1nine();
    RewriteWordThen(m, "two", "1nine", "19", "two1nine", "219");
  }

  /** "twone" with the word table of `Trebuchet::new`. */
  lemma RewriteTwone()
    ensures WellFormed(WordTable()) && Rewrite(WordTable(), "twone") == "2ne"
  {
    WordTableWellFormed();
    WordTableValues();
    WordTableHeads();
    RewriteTwoneIn(WordTable());
  }

  /** "eightwothree" with the word table of `Trebuchet::new`. */
  lemma RewriteEightwothree()
    ensures WellFormed(WordTable()) && Rewrite(WordTable(), "eightwothree") == "8wo3"
  {
    WordTableWellFormed();
    WordTableValues();
    WordTableHeads();
    RewriteEightwothreeIn(WordTable());
  }

  /** "eightwo" with the word table of `Trebuchet::new`. */
  lemma RewriteEightwo()
    ensures WellFormed(WordTable()) && Rewrite(WordTable(), "eightwo") == "8wo"
  {
    WordTableWellFormed();
    WordTableValues();
    WordTableHeads();
    RewriteEightwoIn(WordTable());
  }

  /** "two1nine" with the word table of `Trebuchet::new`. */
  lemma RewriteTwo1nine()
    ensures WellFormed(WordTable()) && Rewrite(WordTable(), "two1nine") == "219"
  {
    WordTableWellFormed();
    WordTableValues();
    WordTableHeads();
    RewriteTwo1nineIn(WordTable());
  }

  lemma WordTableValues()
    ensures "two" in WordTable() && WordTable()["two"] == 2
    ensures "three" in WordTable() && WordTable()["three"] == 3
    ensures "eight" in WordTable() && WordTable()["eight"] == 8
    ensures "nine" in WordTable() && WordTable()["nine"] == 9
  {
  }
}
