/** The Python string operations the scripts use on single lines. */
module PyText {
  /** ASCII white space, as `str.strip` and the `\s` of a regular expression see it. */
  predicate IsSpace(c: char) {
    c == ' ' || c == '\t' || c == '\n' || c == '\r' || c == '\U{0B}' || c == '\U{0C}'
  }

  lemma SpaceCharacters(c: char)
    ensures IsSpace(c) <==> c in {' ', '\t', '\n', '\r', '\U{0B}', '\U{0C}'}
  {
  }

  function StripLeft(s: string): (t: string)
    ensures |t| <= |s| && t == s[|s| - |t|..]
    ensures t == "" || !IsSpace(t[0])
  {
    if s != "" && IsSpace(s[0]) then StripLeft(s[1..]) else s
  }

  function StripRight(s: string): (t: string)
    ensures |t| <= |s| && t == s[..|t|]
    ensures t == "" || !IsSpace(t[|t| - 1])
  {
    if s != "" && IsSpace(s[|s| - 1]) then StripRight(s[..|s| - 1]) else s
  }

  function Strip(s: string): (t: string)
    ensures t == "" || (!IsSpace(t[0]) && !IsSpace(t[|t| - 1]))
    ensures |t| <= |s|
  {
    StripRight(StripLeft(s))
  }

  /** A line without space at its ends is its own strip. */
  lemma Trimmed(s: string)
    requires s == "" || (!IsSpace(s[0]) && !IsSpace(s[|s| - 1]))
    ensures Strip(s) == s
  {
    assert StripLeft(s) == s;
    assert StripRight(s) == s;
  }

  predicate AllSpace(s: string) { forall i | 0 <= i < |s| :: IsSpace(s[i]) }

  /** Nothing but space is stripped. */
  lemma {:induction false} OnlySpaceOnLeft(s: string) returns (k: nat)
    ensures k <= |s| && StripLeft(s) == s[k..] && forall i | 0 <= i < k :: IsSpace(s[i])
  {
    k := 0;
    if s != "" && IsSpace(s[0]) {
      k := OnlySpaceOnLeft(s[1..]);
      k := k + 1;
    }
  }

  lemma {:induction false} OnlySpaceOnRight(s: string) returns (k: nat)
    ensures k <= |s| && StripRight(s) == s[..k] && forall i | k <= i < |s| :: IsSpace(s[i])
  {
    k := |s|;
    if s != "" && IsSpace(s[|s| - 1]) { k := OnlySpaceOnRight(s[..|s| - 1]); }
  }

  lemma SliceOfRest<T>(s: seq<T>, i: nat, k: nat)
    requires i + k <= |s|
    ensures s[i..][..k] == s[i..i + k]
  {
  }

  /** The strip of a line is the part of it between the space at its ends. */
  lemma StripKeepsText(s: string) returns (i: nat, j: nat)
    ensures i <= j <= |s| && Strip(s) == s[i..j]
    ensures forall n | 0 <= n < i || j <= n < |s| :: IsSpace(s[n])
  {
    i := OnlySpaceOnLeft(s);
    var rest := s[i..];
    var k := OnlySpaceOnRight(rest);
    j := i + k;
    SliceOfRest(s, i, k);
    hide StripLeft, StripRight, IsSpace;
    forall n | j <= n < |s| ensures IsSpace(s[n]) { assert rest[n - i] == s[n]; }
  }

  /** Space in front of other text is stripped. */
  lemma {:induction false} SpaceGoes(gap: string, text: string)
    requires AllSpace(gap) && (text == "" || !IsSpace(text[0]))
    ensures StripLeft(gap + text) == text
  {
    if gap == "" {
      assert gap + text == text;
    } else {
      assert (gap + text)[1..] == gap[1..] + text;
      SpaceGoes(gap[1..], text);
    }
  }

  lemma {:induction false} SpaceGoesRight(text: string, gap: string)
    requires AllSpace(gap) && (text == "" || !IsSpace(text[|text| - 1]))
    ensures StripRight(text + gap) == text
  {
    if gap == "" {
      assert text + gap == text;
    } else {
      var n := |gap| - 1;
      assert (text + gap)[..|text| + n] == text + gap[..n];
      SpaceGoesRight(text, gap[..n]);
    }
  }

  /** Space around a text that has none at its ends is stripped. */
  lemma SpaceAroundGoes(gap: string, text: string, gap': string)
    requires AllSpace(gap) && AllSpace(gap') && text != "" && !IsSpace(text[0]) && !IsSpace(text[|text| - 1])
    ensures Strip(gap + (text + gap')) == text
  {
    hide AllSpace, IsSpace;
    assert (text + gap')[0] == text[0];
    SpaceGoes(gap, text + gap');
    SpaceGoesRight(text, gap');
  }

  /** Stripping a stripped line changes nothing. */
  lemma StripTwice(s: string)
    ensures Strip(Strip(s)) == Strip(s)
  {
    Trimmed(Strip(s));
  }

  predicate StartsWith(s: string, prefix: string) { prefix <= s }

  predicate EndsWith(s: string, suffix: string) { |suffix| <= |s| && s[|s| - |suffix|..] == suffix }

  predicate Contains(s: string, part: string) { exists i | 0 <= i <= |s| - |part| :: part <= s[i..] }

  predicate Begins(s: string, part: string, rest: string) { s == part + rest }

  predicate Holds(s: string, part: string, before: string, after: string) { s == before + part + after }

  lemma StartsIff(s: string, part: string)
    ensures StartsWith(s, part) <==> exists rest :: Begins(s, part, rest)
  {
    if StartsWith(s, part) { assert Begins(s, part, s[|part|..]); }
  }

  lemma ContainsIff(s: string, part: string)
    ensures Contains(s, part) <==> exists before, after :: Holds(s, part, before, after)
  {
    if Contains(s, part) {
      var i :| 0 <= i <= |s| - |part| && part <= s[i..];
      assert Holds(s, part, s[..i], s[i + |part|..]);
    }
    if before, after :| Holds(s, part, before, after) {
      assert s[|before|..] == part + after;
    }
  }

  /** `str.count`: occurrences that do not overlap, from the left. */
  function Count(s: string, part: string): nat
    requires part != ""
    decreases |s|
  {
    if |s| < |part| then 0
    else if part <= s then 1 + Count(s[|part|..], part)
    else Count(s[1..], part)
  }

  predicate StandsAt(s: string, part: string, i: nat) { i <= |s| && part <= s[i..] }

  lemma StandsInRest(s: string, part: string, n: nat, i: nat)
    requires n <= |s|
    ensures StandsAt(s[n..], part, i) <==> StandsAt(s, part, n + i)
  {
    if n + i <= |s| { assert s[n..][i..] == s[n + i..]; }
  }

  lemma {:induction false} CountsOneIff(s: string, part: string)
    requires part != ""
    ensures Count(s, part) >= 1 <==> exists i: nat :: StandsAt(s, part, i)
    decreases |s|
  {
    hide StandsAt;
    if |s| < |part| {
      forall i: nat ensures !StandsAt(s, part, i) { TooShort(s, part, i); }
    } else if part <= s {
      StandsInFront(s, part);
    } else {
      CountsOneIff(s[1..], part);
      if i: nat :| StandsAt(s[1..], part, i) { StandsInRest(s, part, 1, i); }
      if i: nat :| StandsAt(s, part, i) { NotInFront(s, part, i); }
    }
  }

  lemma TooShort(s: string, part: string, i: nat)
    requires |s| < |part|
    ensures !StandsAt(s, part, i)
  {
  }

  lemma StandsInFront(s: string, part: string)
    ensures StandsAt(s, part, 0) <==> part <= s
  {
    assert s[0..] == s;
  }

  lemma NotInFront(s: string, part: string, i: nat)
    requires s != "" && !(part <= s) && StandsAt(s, part, i)
    ensures i > 0 && StandsAt(s[1..], part, i - 1)
  {
    StandsInFront(s, part);
    StandsInRest(s, part, 1, i - 1);
  }

  /** The part stands at two places that do not overlap. */
  predicate StandsTwice(s: string, part: string, i: nat, j: nat) { i + |part| <= j && StandsAt(s, part, i) && StandsAt(s, part, j) }

  /** `count` reaches two exactly when the part stands at two places that do not overlap. */
  lemma {:induction false} CountsTwoIff(s: string, part: string)
    requires part != ""
    ensures Count(s, part) >= 2 <==> exists i: nat, j: nat :: StandsTwice(s, part, i, j)
    decreases |s|
  {
    hide StandsAt;
    if |s| < |part| {
      forall i: nat, j: nat ensures !StandsTwice(s, part, i, j) { TooShort(s, part, i); }
    } else if part <= s {
      var n := |part|;
      StandsInFront(s, part);
      CountsOneIff(s[n..], part);
      if k: nat :| StandsAt(s[n..], part, k) {
        StandsInRest(s, part, n, k);
        assert StandsTwice(s, part, 0, n + k);
      }
      if i: nat, j: nat :| StandsTwice(s, part, i, j) { StandsInRest(s, part, n, j - n); }
    } else {
      CountsTwoIff(s[1..], part);
      if i: nat, j: nat :| StandsTwice(s[1..], part, i, j) {
        StandsInRest(s, part, 1, i);
        StandsInRest(s, part, 1, j);
        assert StandsTwice(s, part, i + 1, j + 1);
      }
      if i: nat, j: nat :| StandsTwice(s, part, i, j) {
        NotInFront(s, part, i);
        NotInFront(s, part, j);
        assert StandsTwice(s[1..], part, i - 1, j - 1);
      }
    }
  }

  // ---- a regular expression of tokens with optional space in front of each ----

  predicate Lexes(s: string, tokens: seq<string>)
    decreases |tokens|
  {
    tokens == [] || (StartsWith(StripLeft(s), tokens[0]) && Lexes(StripLeft(s)[|tokens[0]|..], tokens[1..]))
  }

  const LOGGER_TOKENS: seq<string> := ["logger", "=", "get_logger", "("]

  /** The regular expression `^\s*logger\s*=\s*get_logger\s*\(`. */
  predicate DefinesLogger(s: string) { Lexes(s, LOGGER_TOKENS) }

  /** The tokens with the gaps in front of them. */
  function Woven(gaps: seq<string>, tokens: seq<string>): string
    requires |gaps| == |tokens|
  {
    if tokens == [] then "" else gaps[0] + tokens[0] + Woven(gaps[1..], tokens[1..])
  }

  predicate AreTokens(tokens: seq<string>) { forall t | t in tokens :: t != "" && !IsSpace(t[0]) }

  predicate Matched(s: string, tokens: seq<string>, gaps: seq<string>, rest: string) {
    |gaps| == |tokens| && (forall g | g in gaps :: AllSpace(g)) && s == Woven(gaps, tokens) + rest
  }

  lemma Regroup<T>(gap: seq<T>, token: seq<T>, woven: seq<T>, rest: seq<T>)
    ensures gap + (token + (woven + rest)) == gap + token + woven + rest
  {
  }

  lemma Split<T>(s: seq<T>, k: nat)
    requires k <= |s|
    ensures s == s[..k] + s[k..]
  {
  }

  lemma MatchOneMore(gap: string, left: string, after: string, tokens: seq<string>, more: seq<string>, rest: string)
    requires tokens != [] && AllSpace(gap) && left == tokens[0] + after && Matched(after, tokens[1..], more, rest)
    ensures Matched(gap + left, tokens, [gap] + more, rest)
  {
    hide Woven, AllSpace;
    Regroup(gap, tokens[0], Woven(more, tokens[1..]), rest);
    WovenStep(gap, more, tokens);
    assert forall g | g in [gap] + more :: g == gap || g in more;
  }

  lemma {:induction false} LexedIsMatched(s: string, tokens: seq<string>) returns (gaps: seq<string>, rest: string)
    requires Lexes(s, tokens)
    ensures Matched(s, tokens, gaps, rest)
    decreases |tokens|
  {
    if tokens == [] {
      gaps, rest := [], s;
    } else {
      var k := OnlySpaceOnLeft(s);
      var after := s[k..][|tokens[0]|..];
      var more, r := LexedIsMatched(after, tokens[1..]);
      gaps, rest := [s[..k]] + more, r;
      assert AllSpace(s[..k]) && s[k..] == tokens[0] + after;
      hide *;
      Split(s, k);
      MatchOneMore(s[..k], s[k..], after, tokens, more, r);
    }
  }

  lemma WovenStep(gap: string, more: seq<string>, tokens: seq<string>)
    requires tokens != [] && |more| == |tokens| - 1
    ensures Woven([gap] + more, tokens) == gap + tokens[0] + Woven(more, tokens[1..])
  {
    assert ([gap] + more)[1..] == more;
  }

  lemma {:induction false} MatchedIsLexed(s: string, tokens: seq<string>, gaps: seq<string>, rest: string)
    requires AreTokens(tokens) && Matched(s, tokens, gaps, rest)
    ensures Lexes(s, tokens)
    decreases |tokens|
  {
    if tokens != [] {
      hide AllSpace;
      assert gaps[0] in gaps && tokens[0] in tokens;
      var after := Woven(gaps[1..], tokens[1..]) + rest;
      assert s == gaps[0] + (tokens[0] + after);
      SpaceGoes(gaps[0], tokens[0] + after);
      assert (tokens[0] + after)[|tokens[0]|..] == after;
      MatchedIsLexed(after, tokens[1..], gaps[1..], rest);
    }
  }

  /** A line defines a logger exactly when it is the four tokens with any space in front of each, and then anything. */
  lemma DefinesLoggerIff(s: string)
    ensures DefinesLogger(s) <==> exists gaps, rest :: Matched(s, ["logger", "=", "get_logger", "("], gaps, rest)
  {
    hide Matched, Lexes;
    if DefinesLogger(s) {
      var gaps, rest := LexedIsMatched(s, LOGGER_TOKENS);
    }
    if gaps, rest :| Matched(s, ["logger", "=", "get_logger", "("], gaps, rest) {
      LoggerTokens();
      MatchedIsLexed(s, LOGGER_TOKENS, gaps, rest);
    }
  }

  lemma LoggerTokens()
    ensures AreTokens(LOGGER_TOKENS)
  {
  }

  lemma WovenFour(g0: string, g1: string, g2: string, g3: string, t: seq<string>)
    requires |t| == 4
    ensures Woven([g0, g1, g2, g3], t) == g0 + t[0] + (g1 + t[1] + (g2 + t[2] + (g3 + t[3])))
  {
    hide Woven;
    var gaps := [g0, g1, g2, g3];
    assert gaps[0..] == gaps && t[0..] == t && gaps[4..] == [];
    WovenAt(gaps, t, 0);
    WovenAt(gaps, t, 1);
    WovenAt(gaps, t, 2);
    WovenAt(gaps, t, 3);
    WovenNothing(t[4..]);
    assert g3 + t[3] + "" == g3 + t[3];
  }

  lemma WovenAt(gaps: seq<string>, t: seq<string>, i: nat)
    requires i < |gaps| == |t|
    ensures Woven(gaps[i..], t[i..]) == gaps[i] + t[i] + Woven(gaps[i + 1..], t[i + 1..])
  {
    RestOfRest(gaps, i, 1);
    RestOfRest(t, i, 1);
  }

  lemma WovenNothing(t: seq<string>)
    requires t == []
    ensures Woven([], t) == ""
  {
  }

  lemma RestOfRest<T>(s: seq<T>, i: nat, n: nat)
    requires i + n <= |s|
    ensures s[i..][n..] == s[i + n..]
  {
  }

  /** A definition with any space in front of its tokens. */
  lemma SpacedDefinition(g0: string, g1: string, g2: string, g3: string, rest: string)
    requires AllSpace(g0) && AllSpace(g1) && AllSpace(g2) && AllSpace(g3)
    ensures DefinesLogger(g0 + "logger" + (g1 + "=" + (g2 + "get_logger" + (g3 + "("))) + rest)
  {
    hide Woven, Lexes, AllSpace;
    WovenFour(g0, g1, g2, g3, LOGGER_TOKENS);
    LoggerTokens();
    MatchedIsLexed(Woven([g0, g1, g2, g3], LOGGER_TOKENS) + rest, LOGGER_TOKENS, [g0, g1, g2, g3], rest);
  }

  const USUAL := "logger = get_logger("

  lemma UsualTokens()
    ensures "logger" + (" " + "=" + (" " + "get_logger" + ("" + "("))) == USUAL
    ensures AllSpace(" ")
  {
  }

  lemma NoSpace()
    ensures AllSpace("")
  {
  }

  lemma RegroupFirst<T>(gap: seq<T>, first: seq<T>, more: seq<T>, rest: seq<T>)
    ensures gap + first + more + rest == gap + ((first + more) + rest)
  {
  }

  /** The definition as it is usually written, at any indentation and with any arguments. */
  lemma UsualDefinition(gap: string, rest: string)
    requires AllSpace(gap)
    ensures DefinesLogger(gap + ("logger = get_logger(" + rest))
  {
    hide DefinesLogger, AllSpace;
    UsualTokens();
    NoSpace();
    RegroupFirst(gap, "logger", " " + "=" + (" " + "get_logger" + ("" + "(")), rest);
    SpacedDefinition(gap, " ", " ", "", rest);
  }
}
