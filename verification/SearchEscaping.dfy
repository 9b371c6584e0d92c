/**
 Searching for what was typed. `escapeLikeWildcards` must make a LIKE pattern
 mean the typed term and nothing else. LIKE is given here as section 9.7.1 of
 the PostgreSQL manual describes it (section 8.5 of ISO/IEC 9075-2), with the
 default escape character.
*/
module SearchEscaping {
  import opened Prelude

  const ESCAPE := '\\'

  predicate Special(c: char) {
    c == ESCAPE || c == '%' || c == '_'
  }

  /** `escapeLikeWildcards`. */
  function EscapeLikeWildcards(term: string): string {
    if term == "" then ""
    else (if Special(term[0]) then [ESCAPE, term[0]] else [term[0]]) + EscapeLikeWildcards(term[1..])
  }

  // ---- LIKE ----

  datatype Token = AnyString | AnyChar | Literal(c: char)

  /** A pattern read left to right; `None` when it ends in a lone escape character, which PostgreSQL rejects. */
  function Parse(pattern: string): Option<seq<Token>> {
    if pattern == "" then Some([])
    else if pattern[0] == ESCAPE then
      if |pattern| == 1 then None else Prepend(Literal(pattern[1]), Parse(pattern[2..]))
    else if pattern[0] == '%' then Prepend(AnyString, Parse(pattern[1..]))
    else if pattern[0] == '_' then Prepend(AnyChar, Parse(pattern[1..]))
    else Prepend(Literal(pattern[0]), Parse(pattern[1..]))
  }

  function Prepend(token: Token, rest: Option<seq<Token>>): Option<seq<Token>> {
    if rest.None? then None else Some([token] + rest.value)
  }

  predicate Matches(tokens: seq<Token>, s: string)
    decreases |tokens| + |s|
  {
    if tokens == [] then s == ""
    else
      match tokens[0]
      case AnyString => Matches(tokens[1..], s) || (s != "" && Matches(tokens, s[1..]))
      case AnyChar => s != "" && Matches(tokens[1..], s[1..])
      case Literal(c) => s != "" && s[0] == c && Matches(tokens[1..], s[1..])
  }

  /** `s LIKE pattern`; `None` is the error for a malformed pattern. */
  function Like(s: string, pattern: string): Option<bool> {
    var tokens := Parse(pattern);
    if tokens.None? then None else Some(Matches(tokens.value, s))
  }

  /** Folding character by character; one may fold to several or to none. */
  function Fold(fold: char -> string, s: string): string {
    if s == "" then "" else fold(s[0]) + Fold(fold, s[1..])
  }

  /** `s ILIKE pattern`. */
  function ILike(fold: char -> string, s: string, pattern: string): Option<bool> {
    Like(Fold(fold, s), Fold(fold, pattern))
  }

  /** The pattern every search provider builds. */
  function Around(term: string): string {
    "%" + term + "%"
  }

  predicate OccursAt(term: string, s: string, i: int) {
    0 <= i <= |s| - |term| && s[i..i + |term|] == term
  }

  ghost predicate Occurs(term: string, s: string) {
    exists i :: OccursAt(term, s, i)
  }

  // ---- What a term's own tokens match ----

  function Literals(term: string): seq<Token> {
    if term == "" then [] else [Literal(term[0])] + Literals(term[1..])
  }

  /** One escaped character reads back as that character. */
  lemma EscapedCharParses(c: char, rest: string)
    ensures
      var head := if Special(c) then [ESCAPE, c] else [c];
      Parse(head + rest) == Prepend(Literal(c), Parse(rest))
  {
    var head := if Special(c) then [ESCAPE, c] else [c];
    assert (head + rest)[|head|..] == rest;
  }

  lemma {:induction false} EscapedTermParses(term: string, tail: string)
    requires Parse(tail).Some?
    ensures Parse(EscapeLikeWildcards(term) + tail) == Some(Literals(term) + Parse(tail).value)
  {
    hide Parse;
    if term == "" {
      assert EscapeLikeWildcards(term) + tail == tail;
      assert Literals(term) + Parse(tail).value == Parse(tail).value;
    } else {
      var head := if Special(term[0]) then [ESCAPE, term[0]] else [term[0]];
      var rest := EscapeLikeWildcards(term[1..]) + tail;
      EscapedTermParses(term[1..], tail);
      EscapedCharParses(term[0], rest);
      assert EscapeLikeWildcards(term) + tail == head + rest;
      assert [Literal(term[0])] + (Literals(term[1..]) + Parse(tail).value) == Literals(term) + Parse(tail).value;
    }
  }

  /** `%` at the end of a pattern takes whatever is left. */
  lemma {:induction false} AnyStringTakesAll(s: string)
    ensures Matches([AnyString], s)
  {
    if s == "" {
      assert Matches([AnyString][1..], s);
    } else {
      AnyStringTakesAll(s[1..]);
    }
  }

  lemma {:induction false} LiteralsMatchPrefixes(term: string, s: string)
    ensures Matches(Literals(term) + [AnyString], s) <==> term <= s
  {
    var tokens := Literals(term) + [AnyString];
    if term == "" {
      assert tokens == [AnyString];
      AnyStringTakesAll(s);
    } else {
      assert tokens[0] == Literal(term[0]) && tokens[1..] == Literals(term[1..]) + [AnyString];
      if s != "" {
        LiteralsMatchPrefixes(term[1..], s[1..]);
        assert term <= s <==> term[0] == s[0] && term[1..] <= s[1..];
      }
    }
  }

  lemma OccursLater(term: string, s: string)
    requires s != ""
    ensures Occurs(term, s) <==> term <= s || Occurs(term, s[1..])
  {
    if term <= s {
      assert OccursAt(term, s, 0);
    }
    if Occurs(term, s[1..]) {
      var i :| OccursAt(term, s[1..], i);
      assert s[1..][i..i + |term|] == s[i + 1..i + 1 + |term|];
      assert OccursAt(term, s, i + 1);
    }
    if Occurs(term, s) {
      var i :| OccursAt(term, s, i);
      if i > 0 {
        assert s[1..][i - 1..i - 1 + |term|] == s[i..i + |term|];
        assert OccursAt(term, s[1..], i - 1);
      }
    }
  }

  lemma {:induction false} AnyStringSkips(term: string, s: string)
    ensures Matches([AnyString] + (Literals(term) + [AnyString]), s) <==> Occurs(term, s)
  {
    var rest := Literals(term) + [AnyString];
    assert ([AnyString] + rest)[1..] == rest;
    LiteralsMatchPrefixes(term, s);
    if s == "" {
      assert term <= s ==> OccursAt(term, s, 0);
    } else {
      AnyStringSkips(term, s[1..]);
      OccursLater(term, s);
    }
  }

  // ---- Main results ----

  /**
   A string matches the escaped term's pattern exactly when the term occurs in
   it, and the pattern is never malformed.
  */
  lemma EscapedTermMatchesLiterally(s: string, term: string)
    ensures Like(s, Around(EscapeLikeWildcards(term))) == Some(Occurs(term, s))
  {
    assert Parse("%") == Some([AnyString]) by {
      assert "%"[1..] == "" && [AnyString] + [] == [AnyString];
    }
    EscapedTermParses(term, "%");
    var inner := EscapeLikeWildcards(term) + "%";
    assert Around(EscapeLikeWildcards(term)) == "%" + inner && ("%" + inner)[1..] == inner;
    AnyStringSkips(term, s);
  }

  /** A case folding that leaves the three special characters alone and makes no others. */
  ghost predicate KeepsSpecials(fold: char -> string) {
    && (forall c | Special(c) :: fold(c) == [c])
    && (forall c | !Special(c) :: Plain(fold(c)))
  }

  lemma {:induction false} EscapeConcat(a: string, b: string)
    ensures EscapeLikeWildcards(a + b) == EscapeLikeWildcards(a) + EscapeLikeWildcards(b)
  {
    if a == "" {
      assert a + b == b;
    } else {
      EscapeConcat(a[1..], b);
      assert (a + b)[0] == a[0] && (a + b)[1..] == a[1..] + b;
    }
  }

  lemma {:induction false} FoldConcat(fold: char -> string, a: string, b: string)
    ensures Fold(fold, a + b) == Fold(fold, a) + Fold(fold, b)
  {
    if a == "" {
      assert a + b == b;
    } else {
      FoldConcat(fold, a[1..], b);
      assert (a + b)[0] == a[0] && (a + b)[1..] == a[1..] + b;
    }
  }

  /** One character, escaped and then folded, is folded and then escaped. */
  lemma CharCommutes(fold: char -> string, c: char)
    requires KeepsSpecials(fold)
    ensures Fold(fold, if Special(c) then [ESCAPE, c] else [c]) == EscapeLikeWildcards(fold(c))
  {
    if Special(c) {
      assert Special(ESCAPE) && [ESCAPE, c][1..] == [c] && [c][1..] == "";
      assert Fold(fold, [c]) == [c] && Fold(fold, [ESCAPE, c]) == [ESCAPE, c];
      assert EscapeLikeWildcards([c]) == [ESCAPE, c];
    } else {
      assert [c][1..] == "" && Fold(fold, [c]) == fold(c);
      PlainTermsAreUnchanged(fold(c));
    }
  }

  lemma {:induction false} FoldingCommutes(fold: char -> string, term: string)
    requires KeepsSpecials(fold)
    ensures Fold(fold, EscapeLikeWildcards(term)) == EscapeLikeWildcards(Fold(fold, term))
  {
    if term != "" {
      var head := if Special(term[0]) then [ESCAPE, term[0]] else [term[0]];
      FoldingCommutes(fold, term[1..]);
      CharCommutes(fold, term[0]);
      FoldConcat(fold, head, EscapeLikeWildcards(term[1..]));
      EscapeConcat(fold(term[0]), Fold(fold, term[1..]));
      hide KeepsSpecials;
    }
  }

  /** The same for ILIKE: the term occurs when case is ignored. */
  lemma EscapedTermMatchesIgnoringCase(fold: char -> string, s: string, term: string)
    requires KeepsSpecials(fold)
    ensures ILike(fold, s, Around(EscapeLikeWildcards(term))) == Some(Occurs(Fold(fold, term), Fold(fold, s)))
  {
    FoldingCommutes(fold, term);
    assert Fold(fold, "%") == "%" by {
      assert Special('%') && "%"[1..] == "";
    }
    var escaped := EscapeLikeWildcards(term);
    FoldConcat(fold, "%" + escaped, "%");
    FoldConcat(fold, "%", escaped);
    assert Fold(fold, Around(escaped)) == Around(EscapeLikeWildcards(Fold(fold, term)));
    EscapedTermMatchesLiterally(Fold(fold, s), Fold(fold, term));
  }

  // ---- Escaping is needed exactly for terms with a special character ----

  predicate Plain(term: string) {
    forall i | 0 <= i < |term| :: !Special(term[i])
  }

  /** A string the unescaped pattern matches. */
  function Instance(term: string): string {
    if term == "" then ""
    else if term[0] == '%' then Instance(term[1..])
    else if term[0] == '_' then "x" + Instance(term[1..])
    // A trailing escape character escapes the closing `%` of the pattern.
    else if term[0] == ESCAPE then if |term| == 1 then "%" else [term[1]] + Instance(term[2..])
    else [term[0]] + Instance(term[1..])
  }

  lemma {:induction false} PatternMatchesInstance(term: string)
    ensures Parse(term + "%").Some? && Matches(Parse(term + "%").value, Instance(term))
  {
    var pattern := term + "%";
    if term == "" {
      assert pattern == "%" && Parse("") == Some([]);
      AnyStringTakesAll("");
    } else if term[0] == ESCAPE {
      if |term| == 1 {
        assert pattern[2..] == "" && pattern[1] == '%';
        assert [Literal('%')][1..] == [] && "%"[1..] == "";
      } else {
        PatternMatchesInstance(term[2..]);
        assert pattern[2..] == term[2..] + "%";
        assert ([term[1]] + Instance(term[2..]))[1..] == Instance(term[2..]);
        TokenThen(Literal(term[1]), Parse(term[2..] + "%").value, term[1], Instance(term[2..]));
      }
    } else {
      PatternMatchesInstance(term[1..]);
      assert pattern[1..] == term[1..] + "%";
      var rest := Parse(term[1..] + "%").value;
      if term[0] == '%' {
        assert ([AnyString] + rest)[1..] == rest;
      } else if term[0] == '_' {
        TokenThen(AnyChar, rest, 'x', Instance(term[1..]));
      } else {
        TokenThen(Literal(term[0]), rest, term[0], Instance(term[1..]));
      }
    }
  }

  lemma TokenThen(token: Token, rest: seq<Token>, c: char, s: string)
    requires token == AnyChar || token == Literal(c)
    requires Matches(rest, s)
    ensures Matches([token] + rest, [c] + s)
  {
    assert ([token] + rest)[1..] == rest && ([c] + s)[1..] == s;
  }

  lemma {:induction false} InstanceIsShort(term: string)
    ensures |Instance(term)| <= |term| && (Instance(term) == term ==> Plain(term))
  {
    if term == "" {
    } else if term[0] == ESCAPE {
      if |term| > 1 { InstanceIsShort(term[2..]); }
    } else {
      InstanceIsShort(term[1..]);
      if Instance(term) == term {
        assert Instance(term)[1..] == term[1..];
        assert forall i | 1 <= i < |term| :: term[i] == term[1..][i - 1];
      }
    }
  }

  lemma {:induction false} PlainTermsAreUnchanged(term: string)
    requires Plain(term)
    ensures EscapeLikeWildcards(term) == term
  {
    if term != "" {
      PlainTermsAreUnchanged(term[1..]);
    }
  }

  /** Left alone, a term is a faithful search if and only if it contains none of the three special characters. */
  lemma UnescapedIsFaithfulExactlyWhenPlain(term: string)
    ensures (forall s :: Like(s, Around(term)) == Some(Occurs(term, s))) <==> Plain(term)
  {
    if Plain(term) {
      PlainTermsAreUnchanged(term);
      forall s ensures Like(s, Around(term)) == Some(Occurs(term, s)) {
        EscapedTermMatchesLiterally(s, term);
      }
    } else {
      var s := Instance(term);
      PatternMatchesInstance(term);
      InstanceIsShort(term);
      assert Around(term) == "%" + (term + "%") && Around(term)[1..] == term + "%";
      var rest := Parse(term + "%").value;
      assert ([AnyString] + rest)[1..] == rest;
      assert Like(s, Around(term)) == Some(true);
      assert forall i | OccursAt(term, s, i) :: s[i..i + |term|] == s;
    }
  }
}
