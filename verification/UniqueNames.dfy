/**
 Unique asset names. `uniqueName` returns the trimmed request when it is free,
 and otherwise the first free "root (n)". Two things the code promises are
 false at the edges: past 2^53 the counter stops counting and the loop may
 never end, and a blank request can collide once it is trimmed again. Both
 are settled exactly here.
*/
module UniqueNames {
  import opened Prelude
  import opened JsNumbers

  /**
   What JavaScript does with characters and numbers: `toLowerCase` character
   by character, and how a number prints. Past 2^53 it need not print its digits.
  */
  datatype Text = Text(lower: char -> string, show: nat -> string)

  const SUFFIX_CHARS: set<char> := {' ', '(', ')', '0', '1', '2', '3', '4', '5', '6', '7', '8', '9'}

  ghost predicate Faithful(t: Text) {
    && (forall c | c in SUFFIX_CHARS :: t.lower(c) == [c])
    && (forall n: nat | n <= EXACT :: t.show(n) == Decimal(n))
  }

  predicate IsLineEnd(c: char) {
    c == '\n' || c == '\r' || c == '\U{2028}' || c == '\U{2029}'
  }

  /** What `trim` strips and `\s` matches. */
  predicate IsSpace(c: char) {
    || IsLineEnd(c) || c == ' ' || c == '\t' || c == '\U{0B}' || c == '\U{0C}' || c == '\U{A0}' || c == '\U{1680}'
    || '\U{2000}' <= c <= '\U{200A}' || c == '\U{202F}' || c == '\U{205F}' || c == '\U{3000}' || c == '\U{FEFF}'
  }

  predicate IsDigit(c: char) {
    '0' <= c <= '9'
  }

  predicate Digits(s: string) {
    forall i | 0 <= i < |s| :: IsDigit(s[i])
  }

  predicate OneLine(s: string) {
    forall i | 0 <= i < |s| :: !IsLineEnd(s[i])
  }

  function TrimStart(s: string): string {
    if s != "" && IsSpace(s[0]) then TrimStart(s[1..]) else s
  }

  function TrimEnd(s: string): string {
    if s != "" && IsSpace(s[|s| - 1]) then TrimEnd(s[..|s| - 1]) else s
  }

  function Trim(s: string): string {
    TrimEnd(TrimStart(s))
  }

  predicate Trimmed(s: string) {
    s != "" ==> !IsSpace(s[0]) && !IsSpace(s[|s| - 1])
  }

  function Lower(t: Text, s: string): string {
    if s == "" then "" else t.lower(s[0]) + Lower(t, s[1..])
  }

  /** How a name is compared: trimmed, ignoring case. */
  function KeyOf(t: Text, name: string): string {
    Lower(t, Trim(name))
  }

  function Taken(t: Text, existing: seq<string>): set<string> {
    set i | 0 <= i < |existing| :: KeyOf(t, existing[i])
  }

  function Decimal(n: nat): string {
    if n < 10 then [Digit(n)] else Decimal(n / 10) + [Digit(n % 10)]
  }

  function Digit(d: nat): char
    requires d < 10
  {
    '0' + d as char
  }

  function Value(digits: string): nat
    requires Digits(digits)
  {
    if digits == "" then 0
    else
      var last := digits[|digits| - 1];
      assert IsDigit(last);
      10 * Value(digits[..|digits| - 1]) + (last - '0') as nat
  }

  // ---- The " (n)" suffix: /^(.*?)\s\((\d+)\)$/ ----

  /** Where the run of digits at the end of `s` starts. */
  function DigitsStart(s: string): nat
    ensures DigitsStart(s) <= |s|
    ensures forall i | DigitsStart(s) <= i < |s| :: IsDigit(s[i])
  {
    if s != "" && IsDigit(s[|s| - 1]) then DigitsStart(s[..|s| - 1]) else |s|
  }

  datatype Suffixed = Plain | Numbered(root: string, digits: string)

  function SplitSuffix(base: string): (r: Suffixed)
    ensures r.Numbered? ==> r.digits != "" && Digits(r.digits)
  {
    if base == "" || base[|base| - 1] != ')' then Plain
    else
      var body := base[..|base| - 1];
      var at := DigitsStart(body);
      if at < |body| && at >= 2 && body[at - 1] == '(' && IsSpace(body[at - 2]) && OneLine(body[..at - 2])
      then Numbered(body[..at - 2], body[at..]) else Plain
  }

  /** The pattern itself. */
  ghost predicate HasSuffix(base: string, root: string, sp: char, digits: string) {
    base == root + [sp, '('] + digits + [')'] && IsSpace(sp) && digits != "" && Digits(digits) && OneLine(root)
  }

  lemma {:induction false} DigitsStartIs(s: string, at: nat)
    requires at <= |s| && Digits(s[at..]) && (at > 0 ==> !IsDigit(s[at - 1]))
    ensures DigitsStart(s) == at
  {
    if at < |s| {
      assert s[at..][|s| - 1 - at] == s[|s| - 1];
      assert Digits(s[..|s| - 1][at..]) by {
        assert forall i | 0 <= i < |s| - 1 - at :: s[..|s| - 1][at..][i] == s[at..][i];
      }
      DigitsStartIs(s[..|s| - 1], at);
    }
  }

  /** Whatever the pattern matches, the split finds; so it matches in one way only. */
  lemma PatternIsFound(base: string, root: string, sp: char, digits: string)
    requires HasSuffix(base, root, sp, digits)
    ensures SplitSuffix(base) == Numbered(root, digits)
  {
    hide IsSpace, IsLineEnd;
    var body := base[..|base| - 1];
    assert body == root + [sp, '('] + digits;
    assert body[..|root|] == root && body[|root| + 2..] == digits;
    assert body[|root| + 1] == '(' && !IsDigit('(');
    DigitsStartIs(body, |root| + 2);
  }

  /** Whatever the split finds, the pattern matches. */
  lemma FoundIsPattern(base: string)
    requires SplitSuffix(base).Numbered?
    ensures exists sp :: HasSuffix(base, SplitSuffix(base).root, sp, SplitSuffix(base).digits)
  {
    hide IsSpace, IsLineEnd;
    var body := base[..|base| - 1];
    var at := DigitsStart(body);
    assert base == body[..at - 2] + [body[at - 2], '('] + body[at..] + [')'];
    assert HasSuffix(base, SplitSuffix(base).root, body[at - 2], SplitSuffix(base).digits);
  }

  // ---- The names tried ----

  function RootOf(base: string): string {
    match SplitSuffix(base) case Plain => base case Numbered(root, _) => root
  }

  function StartOf(base: string): nat {
    match SplitSuffix(base)
    case Plain => 2
    case Numbered(_, digits) => Next(Round(Value(digits)))
  }

  function Candidate(t: Text, root: string, n: nat): string {
    root + " (" + t.show(n) + ")"
  }

  predicate Busy(t: Text, taken: set<string>, root: string, n: nat) {
    Lower(t, Candidate(t, root, n)) in taken
  }

  /** The number after `k` increments. */
  function Nth(start: nat, k: nat): nat {
    if k == 0 then start else Next(Nth(start, k - 1))
  }

  ghost predicate FirstFree(t: Text, taken: set<string>, root: string, start: nat, k: nat) {
    !Busy(t, taken, root, Nth(start, k)) && forall j: nat | j < k :: Busy(t, taken, root, Nth(start, j))
  }

  ghost predicate NeverFree(t: Text, taken: set<string>, root: string, start: nat) {
    forall k: nat :: Busy(t, taken, root, Nth(start, k))
  }

  /** The result is "root (n)" with the least n >= first that is free. */
  ghost predicate CountsFrom(t: Text, taken: set<string>, root: string, first: nat, r: Option<string>) {
    r.Some? &&
    exists n: nat | first <= n :: r.value == Candidate(t, root, n) && !Busy(t, taken, root, n)
                              && forall j: nat | first <= j < n :: Busy(t, taken, root, j)
  }

  /** A taken name goes on counting after its own number, or from 2 without one, while numbers stay below 2^53. */
  ghost predicate CountsOn(t: Text, base: string, existing: seq<string>, r: Option<string>) {
    && (2 + |existing| <= EXACT && (forall root, sp, digits :: !HasSuffix(base, root, sp, digits)) ==>
          CountsFrom(t, Taken(t, existing), base, 2, r))
    && (forall root, sp, digits | HasSuffix(base, root, sp, digits) && Value(digits) + 1 + |existing| <= EXACT ::
          CountsFrom(t, Taken(t, existing), root, Value(digits) + 1, r))
  }

  /**
   `uniqueName`. `None` stands for the loop that never ends: it is returned
   where the counter no longer changes and its name is taken.
  */
  method UniqueName(t: Text, desired: string, existing: seq<string>) returns (r: Option<string>)
    ensures
      var base := Trim(desired);
      var taken := Taken(t, existing);
      && (Lower(t, base) !in taken ==> r == Some(base))
      && (Lower(t, base) in taken && r.Some? ==>
            exists k: nat :: FirstFree(t, taken, RootOf(base), StartOf(base), k)
                          && r.value == Candidate(t, RootOf(base), Nth(StartOf(base), k)))
      && (r.None? ==> Lower(t, base) in taken && NeverFree(t, taken, RootOf(base), StartOf(base)))
      && (Lower(t, base) in taken && Faithful(t) ==> CountsOn(t, base, existing, r))
  {
    hide Next, Round, IsDouble, Lower, Candidate, Busy, Taken, KeyOf, RootOf, StartOf, Trim, Faithful, CountsOn;
    var taken: set<string> := {};
    NoneTaken(t);
    for i := 0 to |existing|
      invariant taken == Taken(t, existing[..i])
    {
      TakenGrows(t, existing, i);
      taken := taken + {KeyOf(t, existing[i])};
    }
    assert existing[..|existing|] == existing;
    var base := Trim(desired);
    if Lower(t, base) !in taken {
      return Some(base);
    }
    var root := RootOf(base);
    var n := StartOf(base);
    ghost var start := n;
    ghost var k: nat := 0;
    StartIsDouble(base);
    while Busy(t, taken, root, n)
      invariant n == Nth(start, k) && IsDouble(n)
      invariant forall j: nat | j < k :: Busy(t, taken, root, Nth(start, j))
      invariant start < EXACT ==> n <= EXACT
      invariant start >= EXACT ==> n == start || (n <= start + 2 && Next(n) == n)
      decreases Max(EXACT, start + 2) - n
    {
      var next := Next(n);
      NextStaysBounded(n);
      if next == n {
        StuckNumbersStay(t, taken, root, start, k);
        SearchCountsOn(t, base, existing, k, None);
        return None;
      }
      n, k := next, k + 1;
    }
    r := Some(Candidate(t, root, n));
    SearchCountsOn(t, base, existing, k, r);
  }

  lemma NoneTaken(t: Text)
    ensures Taken(t, []) == {}
  {
  }

  lemma TakenGrows(t: Text, existing: seq<string>, i: nat)
    requires i < |existing|
    ensures Taken(t, existing[..i + 1]) == Taken(t, existing[..i]) + {KeyOf(t, existing[i])}
  {
    var before, after := existing[..i], existing[..i + 1];
    assert forall j | 0 <= j < i :: before[j] == after[j];
    forall key | key in Taken(t, before) ensures key in Taken(t, after) {
      var j :| 0 <= j < |before| && key == KeyOf(t, before[j]);
      assert key == KeyOf(t, after[j]);
    }
    assert KeyOf(t, after[i]) in Taken(t, after);
  }

  lemma StartIsDouble(base: string)
    ensures IsDouble(StartOf(base))
  {
    SmallIsExact(2);
    match SplitSuffix(base)
    case Plain =>
    case Numbered(_, digits) => RoundIsDouble(Round(Value(digits)) + 1);
  }

  lemma NextStaysBounded(n: nat)
    requires IsDouble(n)
    ensures IsDouble(Next(n)) && n <= Next(n) <= n + 2
    ensures n < EXACT ==> Next(n) == n + 1
    ensures n >= EXACT ==> Next(Next(n)) == Next(n)
    ensures Next(EXACT) == EXACT
  {
    RoundIsDouble(n + 1);
    SmallIsExact(EXACT);
    NextOfLarge(EXACT);
    if n < EXACT { NextIsExact(n); } else { LargeNumbersStick(n); }
  }

  lemma {:induction false} StuckNumbersStay(t: Text, taken: set<string>, root: string, start: nat, k: nat)
    requires Next(Nth(start, k)) == Nth(start, k) && Busy(t, taken, root, Nth(start, k))
    requires forall j: nat | j < k :: Busy(t, taken, root, Nth(start, j))
    ensures NeverFree(t, taken, root, start)
  {
    forall j: nat ensures Busy(t, taken, root, Nth(start, j)) {
      if j >= k { Stuck(start, k, j); }
    }
  }

  lemma {:induction false} Stuck(start: nat, k: nat, j: nat)
    requires Next(Nth(start, k)) == Nth(start, k) && j >= k
    ensures Nth(start, j) == Nth(start, k)
    decreases j
  {
    if j > k { Stuck(start, k, j - 1); }
  }

  // ---- Distinct numbers give distinct names ----

  lemma {:induction false} DecimalIsDigits(n: nat)
    ensures Digits(Decimal(n)) && Decimal(n) != "" && Value(Decimal(n)) == n
  {
    if n < 10 {
      assert Decimal(n)[..0] == "";
    } else {
      DecimalIsDigits(n / 10);
      assert Decimal(n)[..|Decimal(n)| - 1] == Decimal(n / 10);
    }
  }

  lemma {:induction false} LowerConcat(t: Text, a: string, b: string)
    ensures Lower(t, a + b) == Lower(t, a) + Lower(t, b)
  {
    if a == "" {
      assert a + b == b;
    } else {
      LowerConcat(t, a[1..], b);
      assert (a + b)[0] == a[0] && (a + b)[1..] == a[1..] + b;
    }
  }

  lemma {:induction false} LowerKeeps(t: Text, s: string)
    requires Faithful(t) && forall i | 0 <= i < |s| :: s[i] in SUFFIX_CHARS
    ensures Lower(t, s) == s
  {
    if s != "" {
      assert s[0] in SUFFIX_CHARS;
      LowerKeeps(t, s[1..]);
    }
  }

  lemma DigitIsKept(c: char)
    requires IsDigit(c)
    ensures c in SUFFIX_CHARS
  {
  }

  lemma SuffixIsKept(n: nat)
    ensures forall i | 0 <= i < |" (" + Decimal(n) + ")"| :: (" (" + Decimal(n) + ")")[i] in SUFFIX_CHARS
  {
    DecimalIsDigits(n);
    hide Decimal, Value;
    var digits := Decimal(n);
    var suffix := " (" + digits + ")";
    forall i | 0 <= i < |suffix| ensures suffix[i] in SUFFIX_CHARS {
      if 2 <= i < |suffix| - 1 {
        assert suffix[i] == digits[i - 2];
        DigitIsKept(digits[i - 2]);
      } else {
        assert suffix[i] == " ()"[if i < 2 then i else 2];
      }
    }
  }

  lemma LowerOfCandidate(t: Text, root: string, n: nat)
    requires Faithful(t) && n <= EXACT
    ensures Lower(t, Candidate(t, root, n)) == Lower(t, root) + " (" + Decimal(n) + ")"
  {
    var suffix := " (" + Decimal(n) + ")";
    assert Candidate(t, root, n) == root + suffix;
    SuffixIsKept(n);
    LowerKeeps(t, suffix);
    hide Decimal, Lower, Faithful, Candidate;
    LowerConcat(t, root, suffix);
    assert Lower(t, root) + suffix == Lower(t, root) + " (" + Decimal(n) + ")";
  }

  lemma CandidatesDiffer(t: Text, root: string, m: nat, n: nat)
    requires Faithful(t) && m <= EXACT && n <= EXACT
    requires Lower(t, Candidate(t, root, m)) == Lower(t, Candidate(t, root, n))
    ensures m == n
  {
    LowerOfCandidate(t, root, m);
    LowerOfCandidate(t, root, n);
    var a := Lower(t, Candidate(t, root, m));
    var k := |Lower(t, root)| + 2;
    assert a[k..|a| - 1] == Decimal(m);
    assert a[k..|a| - 1] == Decimal(n);
    DecimalIsDigits(m);
    DecimalIsDigits(n);
  }

  lemma {:induction false} TakenIsSmall(t: Text, existing: seq<string>)
    ensures |Taken(t, existing)| <= |existing|
  {
    if existing != [] {
      var n := |existing| - 1;
      TakenIsSmall(t, existing[..n]);
      TakenGrows(t, existing, n);
      assert existing[..n + 1] == existing;
    }
  }

  // ---- Termination ----

  lemma {:induction false} NthCounts(start: nat, k: nat)
    requires start + k <= EXACT
    ensures Nth(start, k) == start + k
  {
    if k > 0 {
      NthCounts(start, k - 1);
      NextIsExact(start + k - 1);
    }
  }

  /** `m` busy numbers in a row need `m` taken names. */
  lemma {:induction false} BusyNumbersAreTaken(t: Text, taken: set<string>, root: string, start: nat, m: nat)
    requires Faithful(t) && start + m <= EXACT + 1
    requires forall n | start <= n < start + m :: Busy(t, taken, root, n)
    ensures m <= |taken|
    decreases m
  {
    if m > 0 {
      var last := start + m - 1;
      var name := Lower(t, Candidate(t, root, last));
      assert Busy(t, taken, root, last);
      var rest := taken - {name};
      forall n | start <= n < start + (m - 1) ensures Busy(t, rest, root, n) {
        assert Busy(t, taken, root, n);
        if Lower(t, Candidate(t, root, n)) == name { CandidatesDiffer(t, root, n, last); }
      }
      BusyNumbersAreTaken(t, rest, root, start, m - 1);
      assert |rest| == |taken| - 1;
    }
  }

  /** The least free number, found by searching up from `start + from`. */
  lemma SearchUp(t: Text, taken: set<string>, root: string, start: nat, from: nat) returns (k: nat)
    requires Faithful(t) && start + |taken| <= EXACT && from <= |taken|
    requires forall n | start <= n < start + from :: Busy(t, taken, root, n)
    ensures k <= |taken| && !Busy(t, taken, root, start + k)
    ensures forall n | start <= n < start + k :: Busy(t, taken, root, n)
    decreases |taken| - from
  {
    if !Busy(t, taken, root, start + from) {
      k := from;
    } else {
      if from == |taken| {
        BusyNumbersAreTaken(t, taken, root, start, from + 1);
      }
      k := SearchUp(t, taken, root, start, from + 1);
    }
  }

  /**
   While the start and as many more numbers as there are taken names stay
   within 2^53, the loop ends, at the smallest free number from its start.
  */
  lemma SmallestFreeNumber(t: Text, taken: set<string>, root: string, start: nat) returns (k: nat)
    requires Faithful(t) && start + |taken| <= EXACT
    ensures FirstFree(t, taken, root, start, k) && Nth(start, k) == start + k && k <= |taken|
    ensures forall n | start <= n < start + k :: Busy(t, taken, root, n)
    ensures !NeverFree(t, taken, root, start)
  {
    k := SearchUp(t, taken, root, start, 0);
    NthCounts(start, k);
    forall j: nat | j < k ensures Busy(t, taken, root, Nth(start, j)) {
      NthCounts(start, j);
    }
    assert !Busy(t, taken, root, Nth(start, k));
  }

  /** So it ends for every list of names, as long as the numbers needed are exact. */
  lemma EndsForEveryList(t: Text, desired: string, existing: seq<string>)
    requires Faithful(t) && StartOf(Trim(desired)) + |existing| <= EXACT
    ensures
      var base := Trim(desired);
      !NeverFree(t, Taken(t, existing), RootOf(base), StartOf(base))
  {
    hide StartOf, Trim, RootOf, Faithful, Taken;
    TakenIsSmall(t, existing);
    var base := Trim(desired);
    var k := SmallestFreeNumber(t, Taken(t, existing), RootOf(base), StartOf(base));
  }

  /** The search counts on from the request's own number. */
  lemma SearchCountsOn(t: Text, base: string, existing: seq<string>, k: nat, r: Option<string>)
    requires
      var (taken, root, start) := (Taken(t, existing), RootOf(base), StartOf(base));
      if r.Some? then FirstFree(t, taken, root, start, k) && r.value == Candidate(t, root, Nth(start, k))
      else NeverFree(t, taken, root, start)
    ensures Faithful(t) ==> CountsOn(t, base, existing, r)
  {
    hide Faithful, Busy, Candidate, Taken, Round, Value, HasSuffix, DigitsStart, IsSpace;
    if Faithful(t) {
      var taken, root, start := Taken(t, existing), RootOf(base), StartOf(base);
      TakenIsSmall(t, existing);
      if SplitSuffix(base).Plain? {
        if start + |existing| <= EXACT {
          SearchCountsFrom(t, taken, root, start, k, r);
        }
      } else {
        FoundIsPattern(base);
        if Value(SplitSuffix(base).digits) + 1 + |existing| <= EXACT {
          NextIsExact(Value(SplitSuffix(base).digits));
          SmallIsExact(Value(SplitSuffix(base).digits));
          SearchCountsFrom(t, taken, root, start, k, r);
        }
      }
      forall other, sp, digits | HasSuffix(base, other, sp, digits)
        ensures SplitSuffix(base) == Numbered(other, digits)
      {
        PatternIsFound(base, other, sp, digits);
      }
    }
  }

  lemma SearchCountsFrom(t: Text, taken: set<string>, root: string, start: nat, k: nat, r: Option<string>)
    requires Faithful(t) && start + |taken| <= EXACT
    requires if r.Some? then FirstFree(t, taken, root, start, k) && r.value == Candidate(t, root, Nth(start, k))
             else NeverFree(t, taken, root, start)
    ensures CountsFrom(t, taken, root, start, r)
  {
    hide Faithful, Busy, Candidate;
    var least := SmallestFreeNumber(t, taken, root, start);
    if r.Some? {
      assert k == least;
      assert r.value == Candidate(t, root, start + k);
    }
  }

  /** "Logo (2)" asked for again becomes "Logo (3)" whenever that is free. */
  lemma NextNumberWhenFree(t: Text, root: string, m: nat, existing: seq<string>, r: Option<string>)
    requires Faithful(t) && OneLine(root) && m + 1 + |existing| <= EXACT
    requires CountsOn(t, root + " (" + Decimal(m) + ")", existing, r)
    requires Lower(t, root + " (" + Decimal(m + 1) + ")") !in Taken(t, existing)
    ensures r == Some(root + " (" + Decimal(m + 1) + ")")
  {
    hide Decimal, Value, Lower, Taken, IsSpace;
    SpaceIsSpace();
    DecimalIsDigits(m);
    var base := root + " (" + Decimal(m) + ")";
    assert base == root + [' ', '('] + Decimal(m) + [')'];
    assert HasSuffix(base, root, ' ', Decimal(m));
    assert CountsFrom(t, Taken(t, existing), root, m + 1, r);
    assert !Busy(t, Taken(t, existing), root, m + 1);
  }

  /**
   Exactly when the loop never ends: every name it can reach is taken. Below
   2^53 it counts up to 2^53 and stays there; above, it tries at most two.
  */
  lemma NeverFreeExactly(t: Text, taken: set<string>, root: string, start: nat)
    requires IsDouble(start)
    ensures NeverFree(t, taken, root, start) <==>
            if start <= EXACT then forall n: nat | start <= n <= EXACT :: Busy(t, taken, root, n)
            else Busy(t, taken, root, start) && Busy(t, taken, root, Next(start))
  {
    if start <= EXACT {
      if NeverFree(t, taken, root, start) {
        forall n: nat | start <= n <= EXACT ensures Busy(t, taken, root, n) {
          NthCounts(start, n - start);
          assert Busy(t, taken, root, Nth(start, n - start));
        }
      }
      if forall n: nat | start <= n <= EXACT :: Busy(t, taken, root, n) {
        NthCounts(start, EXACT - start);
        SmallIsExact(EXACT);
        NextStaysBounded(EXACT);
        forall j: nat | j <= EXACT - start ensures Busy(t, taken, root, Nth(start, j)) {
          NthCounts(start, j);
        }
        StuckNumbersStay(t, taken, root, start, EXACT - start);
      }
    } else {
      NextStaysBounded(start);
      assert Nth(start, 0) == start;
      assert Nth(start, 1) == Next(start);
      if Busy(t, taken, root, start) && Busy(t, taken, root, Next(start)) {
        StuckNumbersStay(t, taken, root, start, 1);
      }
    }
  }

  /** "Logo (9007199254740992)" asked for a second time: the loop never ends. */
  lemma LargestNumberNeverEnds(t: Text, root: string, existing: seq<string>)
    requires Faithful(t) && OneLine(root) && Trimmed(root) && root != ""
    requires root + " (" + Decimal(EXACT) + ")" in existing
    ensures
      var base := Trim(root + " (" + Decimal(EXACT) + ")");
      NeverFree(t, Taken(t, existing), RootOf(base), StartOf(base))
  {
    hide Trim, Decimal, Value, Round, Next, Lower, IsSpace, DigitsStart;
    SpaceIsSpace();
    var name := root + " (" + Decimal(EXACT) + ")";
    DecimalIsDigits(EXACT);
    TrimmedIsKept(name);
    assert name == root + [' ', '('] + Decimal(EXACT) + [')'];
    PatternIsFound(name, root, ' ', Decimal(EXACT));
    SmallIsExact(EXACT);
    NextStaysBounded(EXACT);
    assert StartOf(name) == EXACT;
    var i :| 0 <= i < |existing| && existing[i] == name;
    assert KeyOf(t, existing[i]) in Taken(t, existing);
    assert Candidate(t, root, EXACT) == name;
    assert Busy(t, Taken(t, existing), root, EXACT);
    NeverFreeExactly(t, Taken(t, existing), root, EXACT);
  }

  // ---- The result ----

  lemma {:induction false} TrimStartIsTrimmed(s: string)
    ensures TrimStart(s) != "" ==> !IsSpace(TrimStart(s)[0])
  {
    if s != "" && IsSpace(s[0]) { TrimStartIsTrimmed(s[1..]); }
  }

  lemma {:induction false} TrimEndIsTrimmed(s: string)
    ensures TrimEnd(s) <= s && (TrimEnd(s) != "" ==> !IsSpace(TrimEnd(s)[|TrimEnd(s)| - 1]))
  {
    if s != "" && IsSpace(s[|s| - 1]) { TrimEndIsTrimmed(s[..|s| - 1]); }
  }

  lemma TrimIsTrimmed(s: string)
    ensures Trimmed(Trim(s))
  {
    TrimStartIsTrimmed(s);
    TrimEndIsTrimmed(TrimStart(s));
  }

  /** Trimming takes away nothing but space, and only at the ends. */
  lemma TrimStripsSpace(s: string) returns (before: string, after: string)
    ensures s == before + Trim(s) + after
    ensures forall i | 0 <= i < |before| :: IsSpace(before[i])
    ensures forall i | 0 <= i < |after| :: IsSpace(after[i])
  {
    hide IsSpace;
    before := StartStripsSpace(s);
    after := EndStripsSpace(TrimStart(s));
  }

  lemma {:induction false} StartStripsSpace(s: string) returns (before: string)
    ensures s == before + TrimStart(s) && forall i | 0 <= i < |before| :: IsSpace(before[i])
  {
    before := "";
    if s != "" && IsSpace(s[0]) {
      var rest := StartStripsSpace(s[1..]);
      before := [s[0]] + rest;
    }
  }

  lemma {:induction false} EndStripsSpace(s: string) returns (after: string)
    ensures s == TrimEnd(s) + after && forall i | 0 <= i < |after| :: IsSpace(after[i])
  {
    after := "";
    if s != "" && IsSpace(s[|s| - 1]) {
      var rest := EndStripsSpace(s[..|s| - 1]);
      after := rest + [s[|s| - 1]];
    }
  }

  lemma TrimmedIsKept(s: string)
    requires Trimmed(s)
    ensures Trim(s) == s
  {
  }

  /** A candidate is already trimmed, unless its root is empty: then it starts with a space. */
  lemma TrimOfCandidate(t: Text, base: string, n: nat)
    requires Trimmed(base)
    ensures
      var root := RootOf(base);
      if root == "" then base == "" && Trim(Candidate(t, root, n)) == "(" + t.show(n) + ")"
      else Trim(Candidate(t, root, n)) == Candidate(t, root, n)
  {
    hide IsSpace;
    assert IsSpace(' ') && !IsSpace('(') && !IsSpace(')') by { SpaceIsSpace(); }
    var root := RootOf(base);
    var name := Candidate(t, root, n);
    if SplitSuffix(base).Numbered? {
      FoundIsPattern(base);
      var sp :| HasSuffix(base, root, sp, SplitSuffix(base).digits);
      assert base[0] == if root == "" then sp else root[0];
    }
    if root == "" {
      assert name[1..] == "(" + t.show(n) + ")";
      TrimmedIsKept(name[1..]);
    } else {
      assert name[0] == root[0] == base[0];
      TrimmedIsKept(name);
    }
  }

  lemma SpaceIsSpace()
    ensures IsSpace(' ') && !IsSpace('(') && !IsSpace(')')
  {
  }

  /**
   Trimming makes a taken name end where it starts: no key of a taken name begins
   with the space a blank root would give.
  */
  lemma BlankRootIsNeverBusy(t: Text, existing: seq<string>, n: nat)
    requires Faithful(t) && NoLeadingSpace(t)
    ensures !Busy(t, Taken(t, existing), "", n)
  {
    var key := Lower(t, Candidate(t, "", n));
    assert Candidate(t, "", n)[0] == ' ';
    assert ' ' in SUFFIX_CHARS;
    assert key[0] == ' ';
    if key in Taken(t, existing) {
      var i :| 0 <= i < |existing| && key == KeyOf(t, existing[i]);
      TrimIsTrimmed(existing[i]);
    }
  }

  /** Lower-casing a visible character never yields a string starting with a space, nor nothing. */
  ghost predicate NoLeadingSpace(t: Text) {
    forall c | !IsSpace(c) :: t.lower(c) != "" && t.lower(c)[0] != ' '
  }

  /** The only way the result can collide. */
  ghost predicate BlankCollision(t: Text, existing: seq<string>, base: string) {
    base == "" && "" in Taken(t, existing) && "(2)" in Taken(t, existing)
  }

  /**
   The exact condition for uniqueness. The name returned collides with an
   existing one, compared as names are (trimmed, ignoring case), if and only
   if the request was blank while a blank name and "(2)" are both taken.
  */
  lemma ResultIsUniqueExactly(t: Text, desired: string, existing: seq<string>, k: nat)
    requires Faithful(t) && NoLeadingSpace(t)
    requires
      var base := Trim(desired);
      Lower(t, base) !in Taken(t, existing) || FirstFree(t, Taken(t, existing), RootOf(base), StartOf(base), k)
    ensures
      var base := Trim(desired);
      var taken := Taken(t, existing);
      var name := if Lower(t, base) !in taken then base else Candidate(t, RootOf(base), Nth(StartOf(base), k));
      KeyOf(t, name) in taken <==> BlankCollision(t, existing, base)
  {
    hide IsSpace, SplitSuffix, Trimmed, Taken;
    var base := Trim(desired);
    var taken := Taken(t, existing);
    TrimIsTrimmed(desired);
    if Lower(t, base) !in taken {
      TrimmedIsKept(base);
    } else {
      var n := Nth(StartOf(base), k);
      TrimOfCandidate(t, base, n);
      if base == "" {
        BlankBase();
        BlankRootIsNeverBusy(t, existing, 2);
        assert Nth(2, 0) == 2;
        assert k == 0;
        TwoIsTwo(t);
      } else {
        assert !Busy(t, taken, RootOf(base), n);
      }
    }
  }

  lemma BlankBase()
    ensures RootOf("") == "" && StartOf("") == 2 && SplitSuffix("") == Plain
  {
  }

  lemma TwoIsTwo(t: Text)
    requires Faithful(t)
    ensures Lower(t, "(" + t.show(2) + ")") == "(2)"
  {
    assert Decimal(2) == "2";
    assert "(" + t.show(2) + ")" == "(2)";
    LowerKeeps(t, "(2)");
  }

  /** A suffix already on the request is replaced, not stacked. */
  lemma SuffixIsReplaced(t: Text, base: string, n: nat)
    requires Faithful(t) && n <= EXACT && SplitSuffix(base).Numbered?
    ensures SplitSuffix(Candidate(t, RootOf(base), n)) == Numbered(SplitSuffix(base).root, Decimal(n))
  {
    FoundIsPattern(base);
    DecimalIsDigits(n);
    var root := RootOf(base);
    assert Candidate(t, root, n) == root + [' ', '('] + Decimal(n) + [')'];
    PatternIsFound(Candidate(t, root, n), root, ' ', Decimal(n));
  }
}
