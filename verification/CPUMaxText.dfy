/**
  What cpu.max and /proc/self/cgroup say, read off their text alone, and that the parsers of
  the quota walk decide exactly that.
*/
module CPUMaxText {
  import opened Common
  import opened QuotaWalk

  predicate Blank(s: string) {
    forall i :: 0 <= i < |s| ==> IsSpace(s[i])
  }

  /** The text is exactly the words a and b: white space around and between, nothing else. */
  ghost predicate TwoWords(data: string, a: string, b: string) {
    exists before, between, after: string ::
      Blank(before) && Blank(between) && Blank(after) && between != [] && Word(a) && Word(b)
      && data == before + (a + (between + (b + after)))
  }

  /** The token is v in decimal, with at most a plus sign, and v is a positive 64-bit integer. */
  predicate PositiveNumber(tok: string, v: int) {
    var digits := if tok != [] && tok[0] == '+' then tok[1..] else tok;
    digits != [] && AllDigits(digits) && Value(digits) == v && 1 <= v < TWO63
  }

  /** "max" and a period: no limit. */
  ghost predicate SaysUnlimited(data: string) {
    exists b: string, v: int :: TwoWords(data, "max", b) && PositiveNumber(b, v)
  }

  ghost predicate SaysFinite(data: string, quota: int, period: int) {
    exists a, b: string :: TwoWords(data, a, b) && PositiveNumber(a, quota) && PositiveNumber(b, period)
  }

  // ---------------------------------------------------------------- words

  lemma {:induction false} SkipBlank(before: string, s: string, data: string)
    requires Blank(before) && data == before + s
    ensures Fields(data) == Fields(s)
  {
    if before == [] {
      assert data == s;
    } else {
      var rest := before[1..] + s;
      assert data[1..] == rest && data[0] == before[0];
      SkipSpace(data);
      SkipBlank(before[1..], s, rest);
    }
  }

  lemma BlankHasNoFields(s: string)
    requires Blank(s)
    ensures Fields(s) == []
  {
    assert s == s + [];
    SkipBlank(s, [], s);
  }

  lemma FirstWord(a: string, rest: string, data: string)
    requires Word(a) && (rest != [] ==> IsSpace(rest[0])) && data == a + rest
    ensures Fields(data) == [a] + Fields(rest)
  {
    assert data[..|a|] == a && data[|a|..] == rest;
    TakeWord(data, |a|);
  }

  lemma LastWord(b: string, after: string, data: string)
    requires Word(b) && Blank(after) && data == b + after
    ensures Fields(data) == [b]
  {
    FirstWord(b, after, data);
    BlankHasNoFields(after);
  }

  lemma TwoWordsAreTheFields(data: string, a: string, b: string)
    requires TwoWords(data, a, b)
    ensures Fields(data) == [a, b]
  {
    var before, between, after: string :|
      Blank(before) && Blank(between) && Blank(after) && between != [] && Word(a) && Word(b)
      && data == before + (a + (between + (b + after)));
    var tail := b + after;
    var rest := between + tail;
    LastWord(b, after, tail);
    SkipBlank(between, tail, rest);
    assert rest[0] == between[0];
    FirstWord(a, rest, a + rest);
    SkipBlank(before, a + rest, data);
  }

  lemma SpanIsBlank(s: string)
    ensures Blank(s[..Span(s, true)])
  {
  }

  lemma WordComesFirst(t: string) returns (word: string, rest: string)
    requires t != [] && !IsSpace(t[0])
    ensures word == t[..Span(t, false)] && rest == t[Span(t, false)..]
    ensures Word(word) && t == word + rest && (rest != [] ==> IsSpace(rest[0]))
  {
    var m := Span(t, false);
    word, rest := t[..m], t[m..];
  }

  /** A text with a first field: white space, the field, and a rest that starts a new one. */
  lemma FirstFieldSplits(s: string) returns (before: string, word: string, rest: string)
    requires Fields(s) != []
    ensures Blank(before) && Word(word) && s == before + (word + rest) && (rest != [] ==> IsSpace(rest[0]))
    ensures Fields(s) == [word] + Fields(rest)
  {
    var n := Span(s, true);
    var t := s[n..];
    SpanIsBlank(s);
    word, rest := WordComesFirst(t);
    before := s[..n];
    assert s == before + t;
    assert Fields(s) == [word] + Fields(rest);
  }

  lemma {:induction false} NoFieldsMeansBlank(s: string)
    requires Fields(s) == []
    ensures Blank(s)
  {
    var n := Span(s, true);
    assert s[n..] == [];
    assert n == |s|;
  }

  lemma FieldsAreTwoWords(data: string, a: string, b: string)
    requires Fields(data) == [a, b]
    ensures TwoWords(data, a, b)
  {
    var before, word, rest := FirstFieldSplits(data);
    assert word == a && Fields(rest) == [b] by {
      assert ([word] + Fields(rest))[0] == a;
      assert ([word] + Fields(rest))[1..] == [b];
    }
    var between, last, after := FirstFieldSplits(rest);
    assert last == b && Fields(after) == [] by {
      assert ([last] + Fields(after))[0] == b;
      assert ([last] + Fields(after))[1..] == [];
    }
    NoFieldsMeansBlank(after);
    assert between != [];
    assert data == before + (a + (between + (b + after)));
  }

  // ---------------------------------------------------------------- numbers

  lemma PositiveIsParsed(tok: string, v: int)
    ensures PositiveNumber(tok, v) <==> v > 0 && ParseInt(tok) == Some(v)
  {
    if tok != [] && tok[0] == '-' {
      assert !IsDigit(tok[0]);
    }
  }

  // ---------------------------------------------------------------- meaning of the text

  lemma PairOf(fields: seq<string>, q: int, p: int)
    ensures ClassifyFields(fields) == Finite(q, p) <==>
            |fields| == 2 && PositiveNumber(fields[0], q) && PositiveNumber(fields[1], p)
  {
    if |fields| == 2 {
      PositiveIsParsed(fields[0], q);
      PositiveIsParsed(fields[1], p);
    }
  }

  lemma KeywordOf(fields: seq<string>)
    ensures ClassifyFields(fields) == Unlimited <==>
            |fields| == 2 && fields[0] == "max" && exists v :: PositiveNumber(fields[1], v)
  {
    if |fields| == 2 && fields[0] == "max" {
      MaxIsNoNumber();
      if ParseInt(fields[1]).Some? {
        PositiveIsParsed(fields[1], ParseInt(fields[1]).value);
      }
      if v :| PositiveNumber(fields[1], v) {
        PositiveIsParsed(fields[1], v);
      }
    }
  }

  /** cpu.max is read as unlimited exactly when it is the keyword and a positive period. */
  lemma UnlimitedExactly(data: string)
    ensures ClassifyCPUMax(data) == Unlimited <==> SaysUnlimited(data)
  {
    KeywordOf(Fields(data));
    if ClassifyCPUMax(data) == Unlimited {
      var b := Fields(data)[1];
      var v :| PositiveNumber(b, v);
      assert Fields(data) == ["max", b];
      FieldsAreTwoWords(data, "max", b);
    } else if b, v :| TwoWords(data, "max", b) && PositiveNumber(b, v) {
      TwoWordsAreTheFields(data, "max", b);
    }
  }

  /** And as a finite pair exactly when it is two positive integers, and then as those two. */
  lemma FiniteExactly(data: string, quota: int, period: int)
    ensures ClassifyCPUMax(data) == Finite(quota, period) <==> SaysFinite(data, quota, period)
  {
    var fields := Fields(data);
    PairOf(fields, quota, period);
    if ClassifyCPUMax(data) == Finite(quota, period) {
      assert fields == [fields[0], fields[1]];
      FieldsAreTwoWords(data, fields[0], fields[1]);
    } else if a, b :| TwoWords(data, a, b) && PositiveNumber(a, quota) && PositiveNumber(b, period) {
      TwoWordsAreTheFields(data, a, b);
    }
  }

  /** Everything else is malformed. */
  lemma MalformedOtherwise(data: string)
    ensures ClassifyCPUMax(data) == Malformed <==>
            !SaysUnlimited(data) && forall q, p :: !SaysFinite(data, q, p)
  {
    UnlimitedExactly(data);
    forall q, p
      ensures ClassifyCPUMax(data) == Finite(q, p) <==> SaysFinite(data, q, p)
    {
      FiniteExactly(data, q, p);
    }
  }

  // ---------------------------------------------------------------- the own path

  /** The text without white space at either end. */
  ghost predicate Trimmed(s: string, p: string) {
    exists before, after: string ::
      Blank(before) && Blank(after) && s == before + p + after
      && (p != [] ==> !IsSpace(p[0]) && !IsSpace(p[|p| - 1]))
  }

  lemma {:induction false} TrimRightEnds(s: string) returns (after: string)
    ensures Blank(after) && s == TrimRight(s) + after
    ensures TrimRight(s) != [] ==> !IsSpace(TrimRight(s)[|TrimRight(s)| - 1])
    decreases |s|
  {
    if s != [] && IsSpace(s[|s| - 1]) {
      var rest := TrimRightEnds(s[..|s| - 1]);
      after := rest + [s[|s| - 1]];
    } else {
      after := [];
    }
  }

  lemma TrimLeftStarts(s: string) returns (before: string, left: string)
    ensures Blank(before) && left == TrimLeft(s) && s == before + left && (left != [] ==> !IsSpace(left[0]))
  {
    before, left := s[..Span(s, true)], TrimLeft(s);
    SpanIsBlank(s);
  }

  lemma PathIsTrimmed(line: string)
    requires UNIFIED <= line
    ensures Trimmed(line[3..], PathOf(line))
  {
    var s := line[3..];
    var before, left := TrimLeftStarts(s);
    var after := TrimRightEnds(left);
    var p := TrimRight(left);
    assert s == before + p + after;
  }

  /** Lines rejoined by newlines give the text back, and no line holds one. */
  function Rejoined(lines: seq<string>): string {
    if lines == [] then [] else if |lines| == 1 then lines[0] else lines[0] + ['\n'] + Rejoined(lines[1..])
  }

  lemma {:induction false} LinesRejoin(s: string)
    ensures Rejoined(Lines(s)) == s
    ensures forall k :: 0 <= k < |Lines(s)| ==> '\n' !in Lines(s)[k]
  {
    if s != [] {
      LinesRejoin(s[1..]);
      var rest := Lines(s[1..]);
      if s[0] == '\n' {
        assert Lines(s)[1..] == rest;
      } else if |rest| == 1 {
        assert Lines(s) == [[s[0]] + rest[0]];
      } else {
        assert Lines(s)[1..] == rest[1..];
        assert [s[0]] + rest[0] + ['\n'] + Rejoined(rest[1..]) == [s[0]] + (rest[0] + ['\n'] + Rejoined(rest[1..]));
      }
      assert s == [s[0]] + s[1..];
    }
  }

  /** Line i is the first that names the unified hierarchy. */
  predicate FirstUnified(lines: seq<string>, i: nat) {
    i < |lines| && UNIFIED <= lines[i] && forall j :: 0 <= j < i ==> !(UNIFIED <= lines[j])
  }

  /** The walk starts at the path of the first unified line, tainted when that path is blank;
      with no such line it starts at the root untainted; a file that cannot be read taints. */
  lemma StartExactly(read: Reader)
    ensures !read(OWN_FILE).Content? ==> StartOf(read) == Start([], true)
    ensures read(OWN_FILE).Content? ==>
      var lines := Lines(read(OWN_FILE).data);
      && (forall i: nat :: FirstUnified(lines, i) ==>
            && Trimmed(lines[i][3..], StartOf(read).path)
            && (StartOf(read).tainted <==> Blank(lines[i][3..])))
      && ((forall j :: 0 <= j < |lines| ==> !(UNIFIED <= lines[j])) ==> StartOf(read) == Start([], false))
  {
    if read(OWN_FILE).Content? {
      var lines := Lines(read(OWN_FILE).data);
      FirstUnifiedLineDecides(lines, 0);
      forall i: nat | FirstUnified(lines, i)
        ensures Trimmed(lines[i][3..], StartOf(read).path) && (StartOf(read).tainted <==> Blank(lines[i][3..]))
      {
        FirstUnifiedLineDecides(lines, i);
        PathIsTrimmed(lines[i]);
        BlankIffNoPath(lines[i][3..], PathOf(lines[i]));
      }
      if forall j :: 0 <= j < |lines| ==> !(UNIFIED <= lines[j]) {
        FirstUnifiedLineDecides(lines, |lines|);
      }
    }
  }

  lemma BlankIffNoPath(s: string, p: string)
    requires Trimmed(s, p)
    ensures Blank(s) <==> p == []
  {
    var before, after: string :|
      Blank(before) && Blank(after) && s == before + p + after
      && (p != [] ==> !IsSpace(p[0]) && !IsSpace(p[|p| - 1]));
    if p != [] {
      assert s[|before|] == p[0];
    }
  }

  // ---------------------------------------------------------------- fail closed, over files

  /** A level that limits nothing: no file there, or one that says so. */
  ghost predicate LimitsNothing(r: Reading) {
    r.Absent? || (r.Content? && SaysUnlimited(r.data))
  }

  lemma LevelLimitsNothing(read: Reader, path: string)
    ensures LevelClass(read, path) == Unlimited <==> LimitsNothing(read(LevelFile(path)))
  {
    if read(LevelFile(path)).Content? {
      UnlimitedExactly(read(LevelFile(path)).data);
    }
  }

  /** The process's own path was understood and no file on the way to the root limits it. */
  ghost predicate FilesProveUnlimited(read: Reader) {
    && !StartOf(read).tainted
    && var levels := Levels(StartOf(read).path);
    forall k :: 0 <= k < |levels| ==> LimitsNothing(read(LevelFile(levels[k])))
  }

  lemma ProofIsInTheFiles(read: Reader)
    ensures ProvablyUnlimited(read) <==> FilesProveUnlimited(read)
  {
    var levels := Levels(StartOf(read).path);
    forall k | 0 <= k < |levels|
      ensures LevelClass(read, levels[k]) == Unlimited <==> LimitsNothing(read(LevelFile(levels[k])))
    {
      LevelLimitsNothing(read, levels[k]);
    }
  }

  /** The full non-zero budget is spent exactly when there are several processors and the
      files prove the hierarchy unlimited. */
  lemma FullBudgetOnlyOverProof(read: Reader, q: Quota, configured: int, gomaxprocs: int)
    requires Resolves(read, q) && configured != 0
    ensures SpinBudget(configured, gomaxprocs, q) == configured <==> gomaxprocs > 1 && FilesProveUnlimited(read)
  {
    ProofIsInTheFiles(read);
    BudgetFailsClosed(read, q, configured, gomaxprocs);
  }

  /** One level whose file is anything else, unreadable included, leaves at most a
      thirty-second, whatever the other levels hold. */
  lemma OtherContentShrinksTheBudget(read: Reader, q: Quota, k: nat, configured: int, gomaxprocs: int)
    requires Resolves(read, q) && configured > 0 && k < |Levels(StartOf(read).path)|
    requires !LimitsNothing(read(LevelFile(Levels(StartOf(read).path)[k])))
    ensures 0 <= SpinBudget(configured, gomaxprocs, q) <= configured / 32
  {
    ProofIsInTheFiles(read);
    BudgetFailsClosed(read, q, configured, gomaxprocs);
  }

  /** The file says a quota below one whole CPU. */
  ghost predicate SaysStarved(r: Reading) {
    r.Content? && exists quota, period :: SaysFinite(r.data, quota, period) && quota < period
  }

  lemma Scaled(x: real, y: real, p: real)
    requires x < y && p > 0.0
    ensures x * p < y * p
  {
  }

  lemma BelowOne(k: CPUMax)
    requires k.Finite? && k.period > 0
    ensures Ratio(k) < 1.0 <==> k.quota < k.period
  {
    var r, p := Ratio(k), k.period as real;
    assert r * p == k.quota as real;
    if r < 1.0 {
      Scaled(r, 1.0, p);
    } else if r > 1.0 {
      Scaled(1.0, r, p);
    }
  }

  lemma StarvedText(data: string)
    ensures var k := ClassifyCPUMax(data);
      SaysStarved(Content(data)) <==> k.Finite? && k.quota < k.period
  {
    var k := ClassifyCPUMax(data);
    if k.Finite? {
      FiniteExactly(data, k.quota, k.period);
    }
    if quota, period :| SaysFinite(data, quota, period) && quota < period {
      FiniteExactly(data, quota, period);
    }
  }

  lemma StarvedLevel(read: Reader, path: string)
    ensures SaysStarved(read(LevelFile(path))) <==>
      var k := LevelClass(read, path); k.Finite? && Ratio(k) < 1.0
  {
    if read(LevelFile(path)).Content? {
      StarvedText(read(LevelFile(path)).data);
      if LevelClass(read, path).Finite? {
        BelowOne(LevelClass(read, path));
      }
    }
  }

  ghost predicate SomeStarved(read: Reader) {
    var levels := Levels(StartOf(read).path);
    exists k :: 0 <= k < |levels| && SaysStarved(read(LevelFile(levels[k])))
  }

  lemma StarvedExactly(read: Reader, q: Quota)
    requires Resolves(read, q)
    ensures q.bound == QuotaLimited && q.ratio < 1.0 <==> SomeStarved(read)
  {
    var levels := Levels(StartOf(read).path);
    forall k | 0 <= k < |levels|
      ensures SaysStarved(read(LevelFile(levels[k]))) <==>
        LevelClass(read, levels[k]).Finite? && Ratio(LevelClass(read, levels[k])) < 1.0
    {
      StarvedLevel(read, levels[k]);
    }
  }

  /** With several processors and no proof that nothing limits it, a process spins for a
      thirty-second of its budget, or not at all exactly when some level on the way to the
      root grants less than one CPU. */
  lemma UnprovedBudgetExactly(read: Reader, q: Quota, configured: nat, gomaxprocs: int)
    requires Resolves(read, q) && gomaxprocs > 1 && !FilesProveUnlimited(read)
    ensures SpinBudget(configured, gomaxprocs, q) == if SomeStarved(read) then 0 else configured / 32
  {
    ProofIsInTheFiles(read);
    UnlimitedExactlyWhenProved(read, q);
    StarvedExactly(read, q);
  }

  /** Each level is read from a file of its own below the cgroup root. */
  lemma LevelsHaveTheirOwnFiles(p: string, q: string)
    ensures CGROUP_ROOT <= LevelFile(p) && (LevelFile(p) == LevelFile(q) ==> p == q)
  {
    var root, tail := |CGROUP_ROOT|, "/cpu.max";
    assert LevelFile(p)[root..|LevelFile(p)| - |tail|] == p;
    assert LevelFile(q)[root..|LevelFile(q)| - |tail|] == q;
  }
}
