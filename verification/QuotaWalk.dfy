/**
  The cgroup v2 CPU quota walk behind the spin budget: parse the process's own cgroup path,
  read cpu.max at that level and every ancestor, classify each, and fail closed on anything
  that does not prove the hierarchy unlimited. File content is text, ratios are exact, and
  the reader is the environment: a total function from path to content, absence or error.
*/
module QuotaWalk {
  import opened Common

  datatype Reading = Content(data: string) | Absent | Failed

  type Reader = string -> Reading

  // ---------------------------------------------------------------- text

  /** The white space strings.Fields and strings.TrimSpace recognise. */
  predicate IsSpace(c: char) {
    var n := c as int;
    9 <= n <= 13 || n == 32 || n == 0x85 || n == 0xA0 || n == 0x1680 || 0x2000 <= n <= 0x200A
    || n == 0x2028 || n == 0x2029 || n == 0x202F || n == 0x205F || n == 0x3000
  }

  /** The length of the longest prefix on which IsSpace is `space`. */
  function Span(s: string, space: bool): (n: nat)
    ensures n <= |s| && (forall i :: 0 <= i < n ==> IsSpace(s[i]) == space)
    ensures n < |s| ==> IsSpace(s[n]) != space
  {
    if s == [] || IsSpace(s[0]) != space then 0 else 1 + Span(s[1..], space)
  }

  function Fields(s: string): seq<string>
    decreases |s|
  {
    var t := s[Span(s, true)..];
    if t == [] then [] else [t[..Span(t, false)]] + Fields(t[Span(t, false)..])
  }

  function TrimLeft(s: string): string {
    s[Span(s, true)..]
  }

  function TrimRight(s: string): string
    decreases |s|
  {
    if s != [] && IsSpace(s[|s| - 1]) then TrimRight(s[..|s| - 1]) else s
  }

  function Lines(s: string): (r: seq<string>)
    ensures |r| > 0
  {
    if s == [] then [[]]
    else
      var rest := Lines(s[1..]);
      if s[0] == '\n' then [[]] + rest else [[s[0]] + rest[0]] + rest[1..]
  }

  predicate IsDigit(c: char) {
    '0' <= c <= '9'
  }

  predicate AllDigits(s: string) {
    forall i :: 0 <= i < |s| ==> IsDigit(s[i])
  }

  function Value(s: string): nat
    requires AllDigits(s)
  {
    if s == [] then 0 else Value(s[..|s| - 1]) * 10 + (s[|s| - 1] as int - '0' as int)
  }

  const TWO63 := 0x8000_0000_0000_0000

  /** strconv.ParseInt in base 10 at 64 bits. */
  function ParseInt(tok: string): Option<int> {
    var signed := tok != [] && (tok[0] == '-' || tok[0] == '+');
    var digits := if signed then tok[1..] else tok;
    if digits == [] || !AllDigits(digits) then None
    else
      var v := Value(digits);
      var n := (if signed && tok[0] == '-' then -1 else 1) * v;
      if -TWO63 <= n < TWO63 then Some(n) else None
  }

  // ---------------------------------------------------------------- one cpu.max

  datatype CPUMax = Unlimited | Finite(quota: int, period: int) | Malformed

  function ParseCPUMax(fields: seq<string>): Option<(int, int)> {
    if |fields| != 2 then None
    else
      var q, p := ParseInt(fields[0]), ParseInt(fields[1]);
      if q.None? || p.None? || q.value <= 0 || p.value <= 0 then None else Some((q.value, p.value))
  }

  predicate IsCanonicalMax(fields: seq<string>) {
    |fields| == 2 && fields[0] == "max" && ParseInt(fields[1]).Some? && ParseInt(fields[1]).value > 0
  }

  function ClassifyFields(fields: seq<string>): (k: CPUMax)
    ensures k.Finite? ==> k.quota > 0 && k.period > 0
  {
    var pair := ParseCPUMax(fields);
    if pair.Some? then Finite(pair.value.0, pair.value.1)
    else if IsCanonicalMax(fields) then Unlimited
    else Malformed
  }

  function ClassifyCPUMax(data: string): (k: CPUMax)
    ensures k.Finite? ==> k.quota > 0 && k.period > 0
  {
    ClassifyFields(Fields(data))
  }

  function Ratio(k: CPUMax): real
    requires k.Finite? && k.period > 0
  {
    k.quota as real / k.period as real
  }

  function Decimal(n: nat): (s: string)
    ensures AllDigits(s) && |s| > 0 && Value(s) == n
  {
    if n < 10 then
      assert ['0' + n as char][..0] == [];
      ['0' + n as char]
    else
      var s := Decimal(n / 10) + ['0' + (n % 10) as char];
      assert s[..|s| - 1] == Decimal(n / 10);
      s
  }

  /** Non-empty and free of white space. */
  predicate Word(s: string) {
    s != [] && forall i :: 0 <= i < |s| ==> !IsSpace(s[i])
  }

  lemma {:induction false} SpanOf(s: string, n: nat)
    requires n <= |s| && (forall i :: 0 <= i < n ==> !IsSpace(s[i])) && (n < |s| ==> IsSpace(s[n]))
    ensures Span(s, false) == n
  {
    if n > 0 {
      var t := s[1..];
      assert forall i :: 0 <= i < n - 1 ==> t[i] == s[i + 1];
      SpanOf(t, n - 1);
    }
  }

  lemma {:induction false} TakeWord(s: string, n: nat)
    requires 0 < n <= |s| && Word(s[..n]) && (n < |s| ==> IsSpace(s[n]))
    ensures Fields(s) == [s[..n]] + Fields(s[n..])
  {
    assert forall i :: 0 <= i < n ==> s[i] == s[..n][i];
    SpanOf(s, n);
    assert Span(s, true) == 0 && s[0..] == s;
  }

  lemma {:induction false} SkipSpace(s: string)
    requires s != [] && IsSpace(s[0])
    ensures Fields(s) == Fields(s[1..])
  {
    var t := s[1..];
    assert Span(s, true) == 1 + Span(t, true);
    assert s[Span(s, true)..] == t[Span(t, true)..];
  }

  lemma {:induction false} WordThenSpace(s: string, n: nat)
    requires 0 < n < |s| && Word(s[..n]) && IsSpace(s[n])
    ensures Fields(s) == [s[..n]] + Fields(s[n + 1..])
  {
    TakeWord(s, n);
    SkipSpace(s[n..]);
    assert s[n..][1..] == s[n + 1..];
  }

  lemma SlicesOf(a: string, c: char, t: string, s: string)
    requires s == a + ([c] + t)
    ensures |a| < |s| && s[..|a|] == a && s[|a|] == c && s[|a| + 1..] == t
  {
  }

  lemma {:induction false} FirstField(a: string, c: char, t: string, s: string)
    requires Word(a) && IsSpace(c) && s == a + ([c] + t)
    ensures Fields(s) == [a] + Fields(t)
  {
    SlicesOf(a, c, t, s);
    WordThenSpace(s, |a|);
  }

  lemma {:induction false} LastField(b: string, t: string)
    requires Word(b) && t == b + ['\n']
    ensures Fields(t) == [b]
  {
    FirstField(b, '\n', [], t);
  }

  lemma {:induction false} TwoFields(a: string, b: string, s: string)
    requires Word(a) && Word(b) && s == a + [' '] + b + ['\n']
    ensures Fields(s) == [a, b]
  {
    var t := b + ['\n'];
    assert s == a + ([' '] + t);
    LastField(b, t);
    FirstField(a, ' ', t, s);
  }

  lemma {:induction false} DecimalReadsBack(n: nat)
    requires n < TWO63
    ensures Word(Decimal(n)) && ParseInt(Decimal(n)) == Some(n)
  {
    var s := Decimal(n);
    assert forall i :: 0 <= i < |s| ==> IsDigit(s[i]) && !IsSpace(s[i]);
    assert IsDigit(s[0]);
  }

  lemma {:induction false} LineIsClassified(a: string, b: string, s: string)
    requires Word(a) && Word(b) && s == a + [' '] + b + ['\n']
    ensures ClassifyCPUMax(s) == ClassifyFields([a, b])
  {
    TwoFields(a, b, s);
  }

  /** A finite pair as the kernel writes it is read back as that pair. */
  lemma {:induction false} FinitePairIsRead(quota: nat, period: nat, s: string)
    requires 0 < quota < TWO63 && 0 < period < TWO63
    requires s == Decimal(quota) + [' '] + Decimal(period) + ['\n']
    ensures ClassifyCPUMax(s) == Finite(quota, period)
  {
    var a, b := Decimal(quota), Decimal(period);
    DecimalReadsBack(quota);
    DecimalReadsBack(period);
    LineIsClassified(a, b, s);
    PairIsFinite(a, b);
  }

  /** The keyword form with any period is read as unlimited. */
  lemma {:induction false} KeywordIsRead(period: nat, s: string)
    requires 0 < period < TWO63 && s == "max" + [' '] + Decimal(period) + ['\n']
    ensures ClassifyCPUMax(s) == Unlimited
  {
    var b := Decimal(period);
    DecimalReadsBack(period);
    LineIsClassified("max", b, s);
    MaxIsUnlimited(b);
  }

  lemma PairIsFinite(a: string, b: string)
    requires ParseInt(a).Some? && ParseInt(a).value > 0 && ParseInt(b).Some? && ParseInt(b).value > 0
    ensures ClassifyFields([a, b]) == Finite(ParseInt(a).value, ParseInt(b).value)
  {
  }

  lemma MaxIsUnlimited(b: string)
    requires ParseInt(b).Some? && ParseInt(b).value > 0
    ensures ClassifyFields(["max", b]) == Unlimited
  {
    MaxIsNoNumber();
  }

  lemma MaxIsNoNumber()
    ensures ParseInt("max") == None
  {
    assert !IsDigit("max"[0]);
  }

  // ---------------------------------------------------------------- the path

  datatype OwnPath = Resolved(path: string) | NoUnifiedLine | BlankPath

  const UNIFIED := "0::"

  const OWN_FILE := "/proc/self/cgroup"

  function PathOf(line: string): string
    requires UNIFIED <= line
  {
    TrimRight(TrimLeft(line[3..]))
  }

  function OwnPathIn(lines: seq<string>): OwnPath {
    if lines == [] then NoUnifiedLine
    else if UNIFIED <= lines[0] then (if PathOf(lines[0]) == [] then BlankPath else Resolved(PathOf(lines[0])))
    else OwnPathIn(lines[1..])
  }

  /** The first line naming the unified hierarchy decides, whatever the others say; without
      one the path is absent. */
  lemma {:induction false} FirstUnifiedLineDecides(lines: seq<string>, i: nat)
    requires i <= |lines| && (forall j :: 0 <= j < i ==> !(UNIFIED <= lines[j]))
    ensures OwnPathIn(lines) == OwnPathIn(lines[i..])
    ensures i == |lines| ==> OwnPathIn(lines) == NoUnifiedLine
  {
    if i == 0 {
      assert lines[0..] == lines;
    } else {
      var rest := lines[1..];
      assert forall j :: 0 <= j < i - 1 ==> rest[j] == lines[j + 1];
      FirstUnifiedLineDecides(rest, i - 1);
      assert rest[i - 1..] == lines[i..];
    }
  }

  method ParseOwnCgroupPath(data: string) returns (own: OwnPath)
    ensures own == OwnPathIn(Lines(data))
  {
    var lines := Lines(data);
    for i := 0 to |lines|
      invariant forall j :: 0 <= j < i ==> !(UNIFIED <= lines[j])
    {
      FirstUnifiedLineDecides(lines, i);
      if UNIFIED <= lines[i] {
        var rest := PathOf(lines[i]);
        return if rest == [] then BlankPath else Resolved(rest);
      }
    }
    FirstUnifiedLineDecides(lines, |lines|);
    return NoUnifiedLine;
  }

  /** Where the walk starts, and whether the process's own cgroup is already unknown. */
  datatype Start = Start(path: string, tainted: bool)

  function StartOf(read: Reader): Start {
    match read(OWN_FILE)
    case Content(data) =>
      (match OwnPathIn(Lines(data))
       case Resolved(p) => Start(p, false)
       case BlankPath => Start([], true)
       case NoUnifiedLine => Start([], false))
    case _ => Start([], true)
  }

  function LastSlash(s: string): (i: int)
    ensures -1 <= i < |s| && (i >= 0 ==> s[i] == '/') && forall j :: i < j < |s| ==> s[j] != '/'
  {
    if s == [] then -1
    else if s[|s| - 1] == '/' then |s| - 1
    else LastSlash(s[..|s| - 1])
  }

  function Parent(path: string): string {
    var p := if path != [] && path[|path| - 1] == '/' then path[..|path| - 1] else path;
    var i := LastSlash(p);
    if i <= 0 then [] else p[..i]
  }

  /** The walk ends: a path that is not the root gets strictly shorter. */
  lemma ParentIsShorter(path: string)
    requires path != [] && path != "/"
    ensures |Parent(path)| < |path|
  {
  }

  /** The levels the walk reads, from the process's own up to the root. */
  function Levels(path: string): seq<string>
    decreases |path|
  {
    if path == [] || path == "/" then [path] else [path] + Levels(Parent(path))
  }

  function Joined(parts: seq<string>): string {
    if parts == [] then [] else Joined(parts[..|parts| - 1]) + "/" + parts[|parts| - 1]
  }

  predicate PathPart(s: string) {
    s != [] && '/' !in s
  }

  lemma ParentOfChild(prefix: string, part: string, path: string)
    requires PathPart(part) && path == prefix + ['/'] + part
    ensures Parent(path) == prefix && path != "/" && path != []
  {
    var i, n := LastSlash(path), |prefix|;
    assert path[n] == '/';
    assert forall j :: n < j < |path| ==> path[j] == part[j - n - 1];
    assert path[|path| - 1] != '/';
    assert i == n;
    assert path[..n] == prefix;
  }

  lemma StepUp(parts: seq<string>)
    requires parts != [] && PathPart(parts[|parts| - 1])
    ensures Levels(Joined(parts)) == [Joined(parts)] + Levels(Joined(parts[..|parts| - 1]))
  {
    ParentOfChild(Joined(parts[..|parts| - 1]), parts[|parts| - 1], Joined(parts));
  }

  /** A path and all its ancestors, by parts: the process's own group first, the root last. */
  function Ancestors(parts: seq<string>): (r: seq<string>)
    ensures |r| == |parts| + 1
  {
    if parts == [] then [Joined(parts)] else [Joined(parts)] + Ancestors(parts[..|parts| - 1])
  }

  lemma {:induction false} AncestorsArePrefixes(parts: seq<string>, k: nat)
    requires k <= |parts|
    ensures Ancestors(parts)[k] == Joined(parts[..|parts| - k])
  {
    if k == 0 {
      assert parts[..|parts|] == parts;
    } else {
      var up := parts[..|parts| - 1];
      AncestorsArePrefixes(up, k - 1);
      assert up[..|up| - (k - 1)] == parts[..|parts| - k];
    }
  }

  /** On a cgroup path of n parts the walk reads exactly the n + 1 prefixes: the process's
      own group, every ancestor, and the root. */
  lemma {:induction false} LevelsAreTheAncestors(parts: seq<string>)
    requires forall i :: 0 <= i < |parts| ==> PathPart(parts[i])
    ensures Levels(Joined(parts)) == Ancestors(parts)
  {
    if parts != [] {
      StepUp(parts);
      LevelsAreTheAncestors(parts[..|parts| - 1]);
    }
  }

  // ---------------------------------------------------------------- the walk

  const CGROUP_ROOT := "/sys/fs/cgroup"

  function LevelFile(path: string): string {
    CGROUP_ROOT + path + "/cpu.max"
  }

  /** What one level contributes; absence counts as unlimited, an error as malformed. */
  function LevelClass(read: Reader, path: string): CPUMax {
    match read(LevelFile(path))
    case Content(data) => ClassifyCPUMax(data)
    case Absent => Unlimited
    case Failed => Malformed
  }

  datatype QuotaClass = QuotaUnlimited | QuotaLimited | QuotaUnknown

  datatype Quota = Quota(ratio: real, bound: QuotaClass, exact: bool)

  predicate SomeFinite(read: Reader, levels: seq<string>) {
    exists k :: 0 <= k < |levels| && LevelClass(read, levels[k]).Finite?
  }

  predicate AllClean(read: Reader, levels: seq<string>) {
    forall k :: 0 <= k < |levels| ==> !LevelClass(read, levels[k]).Malformed?
  }

  /** r is the least ratio of the finite levels. */
  predicate Minimum(read: Reader, levels: seq<string>, r: real) {
    && (exists k :: 0 <= k < |levels| && LevelClass(read, levels[k]).Finite?
                    && Ratio(LevelClass(read, levels[k])) == r)
    && (forall k :: 0 <= k < |levels| && LevelClass(read, levels[k]).Finite?
                    ==> r <= Ratio(LevelClass(read, levels[k])))
  }

  predicate Summary(read: Reader, levels: seq<string>, tainted: bool, q: Quota) {
    && q.exact == (!tainted && AllClean(read, levels))
    && match q.bound
       case QuotaLimited => Minimum(read, levels, q.ratio)
       case QuotaUnknown => !SomeFinite(read, levels) && !q.exact && q.ratio == 0.0
       case QuotaUnlimited => !SomeFinite(read, levels) && q.exact && q.ratio == 0.0
  }

  /** What the walk answers for this process. */
  predicate Resolves(read: Reader, q: Quota) {
    Summary(read, Levels(StartOf(read).path), StartOf(read).tainted, q)
  }

  /** What the walk knows after the levels seen so far. */
  predicate Known(read: Reader, seen: seq<string>, tainted: bool,
                  least: real, haveFinite: bool, sawRealError: bool) {
    && sawRealError == (tainted || !AllClean(read, seen))
    && haveFinite == SomeFinite(read, seen)
    && (haveFinite ==> Minimum(read, seen, least))
  }

  lemma KnownAfter(read: Reader, seen: seq<string>, path: string, now: seq<string>, least: real, next: real)
    requires now == seen + [path]
    requires SomeFinite(read, seen) ==> Minimum(read, seen, least)
    requires
      var k := LevelClass(read, path);
      next == if k.Finite? && (!SomeFinite(read, seen) || Ratio(k) < least) then Ratio(k) else least
    ensures AllClean(read, now) == (AllClean(read, seen) && !LevelClass(read, path).Malformed?)
    ensures SomeFinite(read, now) == (SomeFinite(read, seen) || LevelClass(read, path).Finite?)
    ensures SomeFinite(read, now) ==> Minimum(read, now, next)
  {
    assert now[|seen|] == path;
    assert forall i :: 0 <= i < |seen| ==> now[i] == seen[i];
  }

  /** One level of the walk, folded into what is known. */
  method VisitLevel(read: Reader, path: string, minRatio: real, finite: bool, error: bool,
                    ghost seen: seq<string>, ghost tainted: bool)
    returns (least: real, haveFinite: bool, sawRealError: bool)
    requires Known(read, seen, tainted, minRatio, finite, error)
    ensures Known(read, seen + [path], tainted, least, haveFinite, sawRealError)
  {
    least, haveFinite, sawRealError := minRatio, finite, error;
    var level := LevelClass(read, path);
    match level {
      case Finite(quota, period) =>
        if !haveFinite || Ratio(level) < least {
          least := Ratio(level);
        }
        haveFinite := true;
      case Unlimited =>
      case Malformed =>
        sawRealError := true;
    }
    KnownAfter(read, seen, path, seen + [path], minRatio, least);
  }

  lemma {:induction false} LevelsFrom(seen: seq<string>, path: string)
    ensures (path == [] || path == "/") ==> seen + Levels(path) == seen + [path]
    ensures !(path == [] || path == "/") ==> seen + Levels(path) == seen + [path] + Levels(Parent(path))
  {
    if !(path == [] || path == "/") {
      var up := Levels(Parent(path));
      assert Levels(path) == [path] + up;
      assert seen + ([path] + up) == seen + [path] + up;
    }
  }

  method ResolveCPUQuota(read: Reader) returns (q: Quota)
    ensures Resolves(read, q)
  {
    var path, tainted := OwnCgroupPath(read);
    var least, haveFinite, sawRealError := 0.0, false, tainted;
    ghost var seen: seq<string> := [];
    ghost var start := path;
    while true
      invariant Levels(start) == seen + Levels(path)
      invariant Known(read, seen, tainted, least, haveFinite, sawRealError)
      decreases |path|
    {
      least, haveFinite, sawRealError := VisitLevel(read, path, least, haveFinite, sawRealError, seen, tainted);
      LevelsFrom(seen, path);
      seen := seen + [path];
      if path == [] || path == "/" {
        break;
      }
      ParentIsShorter(path);
      path := Parent(path);
    }
    q := if haveFinite then Quota(least, QuotaLimited, !sawRealError)
         else if sawRealError then Quota(0.0, QuotaUnknown, !sawRealError)
         else Quota(0.0, QuotaUnlimited, !sawRealError);
  }

  method OwnCgroupPath(read: Reader) returns (path: string, tainted: bool)
    ensures Start(path, tainted) == StartOf(read)
  {
    match read(OWN_FILE) {
      case Content(data) =>
        var own := ParseOwnCgroupPath(data);
        match own {
          case Resolved(p) => return p, false;
          case BlankPath => return [], true;
          case NoUnifiedLine => return [], false;
        }
      case _ => return [], true;
    }
  }

  /** The answer is determined by what the files hold. */
  lemma QuotaIsDetermined(read: Reader, one: Quota, two: Quota)
    requires Resolves(read, one) && Resolves(read, two)
    ensures one == two
  {
    var levels := Levels(StartOf(read).path);
    MinimumIsUnique(read, levels, one.ratio, two.ratio);
    assert forall r :: Minimum(read, levels, r) ==> SomeFinite(read, levels);
  }

  lemma MinimumIsUnique(read: Reader, levels: seq<string>, r: real, t: real)
    ensures Minimum(read, levels, r) && Minimum(read, levels, t) ==> r == t
  {
  }

  // ---------------------------------------------------------------- the spin budget

  const SHRINK := 32

  /** Division of durations truncates toward zero. */
  function Shrunk(d: int): int {
    if d >= 0 then d / SHRINK else -(-d / SHRINK)
  }

  function SpinBudget(configured: int, gomaxprocs: int, q: Quota): int {
    if gomaxprocs <= 1 then 0
    else match q.bound
      case QuotaUnlimited => configured
      case QuotaUnknown => Shrunk(configured)
      case QuotaLimited => if q.ratio < 1.0 then 0 else Shrunk(configured)
  }

  predicate AllUnlimited(read: Reader, levels: seq<string>) {
    forall k :: 0 <= k < |levels| ==> LevelClass(read, levels[k]) == Unlimited
  }

  /** The process's own path is known and every level up to the root is unlimited or absent. */
  predicate ProvablyUnlimited(read: Reader) {
    !StartOf(read).tainted && AllUnlimited(read, Levels(StartOf(read).path))
  }

  lemma UnlimitedExactlyWhenProved(read: Reader, q: Quota)
    requires Resolves(read, q)
    ensures q.bound == QuotaUnlimited <==> ProvablyUnlimited(read)
    ensures q.bound == QuotaUnlimited ==> q.exact
  {
    var levels := Levels(StartOf(read).path);
    if AllUnlimited(read, levels) {
      assert AllClean(read, levels) && !SomeFinite(read, levels);
    }
  }

  /** The full non-zero budget is spent exactly when there is more than one processor and
      the hierarchy is provably unlimited; anything else gets at most a thirty-second. */
  lemma BudgetFailsClosed(read: Reader, q: Quota, configured: int, gomaxprocs: int)
    requires Resolves(read, q) && configured != 0
    ensures SpinBudget(configured, gomaxprocs, q) == configured <==> gomaxprocs > 1 && ProvablyUnlimited(read)
    ensures configured > 0 && !(gomaxprocs > 1 && ProvablyUnlimited(read)) ==>
              0 <= SpinBudget(configured, gomaxprocs, q) <= configured / SHRINK
  {
    UnlimitedExactlyWhenProved(read, q);
  }

  /** A finite level below one CPU anywhere up to the root leaves nothing to spin, whatever
      the other levels hold. */
  lemma StarvedProcessNeverSpins(read: Reader, q: Quota, k: nat, configured: int, gomaxprocs: int)
    requires Resolves(read, q) && k < |Levels(StartOf(read).path)|
    requires
      var at := LevelClass(read, Levels(StartOf(read).path)[k]);
      at.Finite? && Ratio(at) < 1.0
    ensures SpinBudget(configured, gomaxprocs, q) == 0
  {
    var levels := Levels(StartOf(read).path);
    assert SomeFinite(read, levels);
  }

  /** The certificate that no limit exists is issued exactly when that is proved. */
  method CgroupCPUUnconstrained(read: Reader) returns (free: bool)
    ensures free <==> ProvablyUnlimited(read)
  {
    var q := ResolveCPUQuota(read);
    UnlimitedExactlyWhenProved(read, q);
    free := q.bound == QuotaUnlimited && q.exact;
  }

  /** A ratio is certified exactly when every level was understood and one is finite, and
      then it is the least over the whole ancestry. */
  method CgroupCPUQuota(read: Reader) returns (ratio: real, ok: bool)
    ensures
      var levels := Levels(StartOf(read).path);
      ok <==> !StartOf(read).tainted && AllClean(read, levels) && SomeFinite(read, levels)
    ensures ok ==> Minimum(read, Levels(StartOf(read).path), ratio)
  {
    var q := ResolveCPUQuota(read);
    ratio, ok := q.ratio, q.bound == QuotaLimited && q.exact;
  }
}
