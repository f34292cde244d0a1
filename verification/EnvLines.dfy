/** What a single line of the `.env` file sets, from its text. */
module EnvLines {
  import opened LineEdits
  import opened PyText
  import opened Wrappers
  import opened EnvConfig

  /** A name and a value with any space around them, and `=` between. */
  ghost predicate Line(line: string, name: string, value: string, gaps: (string, string, string, string)) {
    && AllSpace(gaps.0) && AllSpace(gaps.1) && AllSpace(gaps.2) && AllSpace(gaps.3)
    && line == gaps.0 + ((name + (gaps.1 + ("=" + (gaps.2 + (value + gaps.3))))))
  }

  predicate IsName(name: string) {
    name != "" && '=' !in name && name[0] != '#' && !IsSpace(name[0]) && !IsSpace(name[|name| - 1])
  }

  predicate IsValue(value: string) { value == "" || (!IsSpace(value[0]) && !IsSpace(value[|value| - 1])) }

  lemma {:induction false} EqualsBehind(front: string, rest: string)
    requires '=' !in front
    ensures Equals(front + ("=" + rest)) == |front|
  {
    if front == "" {
      assert front + ("=" + rest) == "=" + rest;
    } else {
      assert (front + ("=" + rest))[1..] == front[1..] + ("=" + rest);
      assert (front + ("=" + rest))[0] == front[0] && front[0] in front;
      EqualsBehind(front[1..], rest);
    }
  }

  /** A line is ignored exactly when it is blank, a comment, or has no `=`. */
  lemma IgnoredIff(raw: string)
    ensures Parse(raw) == None <==> Strip(raw) == "" || Strip(raw)[0] == '#' || '=' !in Strip(raw)
  {
    hide Strip, KeyOf;
    var line := Strip(raw);
    if Equals(line) == |line| {
      forall c | c in line ensures c != '=' { var j :| 0 <= j < |line| && line[j] == c; }
    }
  }

  /** A line without space at its ends. */
  lemma ParseTrimmed(raw: string, front: string, back: string)
    requires Strip(raw) == front + ("=" + back) && front != "" && '=' !in front && front[0] != '#'
    ensures Parse(raw) == Some(Setting(KeyOf(Strip(front)), Strip(back)))
  {
    hide Strip, KeyOf;
    var line := front + ("=" + back);
    EqualsBehind(front, back);
    assert line[0] == front[0] && line[..|front|] == front && line[|front| + 1..] == back;
  }

  lemma SpaceHasNoEquals(gap: string)
    requires AllSpace(gap)
    ensures '=' !in gap
  {
  }

  lemma NoEquals(name: string, gap: string)
    requires IsName(name) && AllSpace(gap)
    ensures '=' !in name + gap && (name + gap)[0] == name[0]
  {
    SpaceHasNoEquals(gap);
  }

  lemma StripName(name: string, gap: string)
    requires IsName(name) && AllSpace(gap)
    ensures Strip(name + gap) == name
  {
    hide AllSpace, Strip;
    NoSpace();
    assert "" + (name + gap) == name + gap;
    SpaceAroundGoes("", name, gap);
  }

  lemma StripValue(gap: string, value: string)
    requires IsValue(value) && AllSpace(gap)
    ensures Strip(gap + value) == value
  {
    if value == "" {
      assert gap + value == gap;
      OnlySpace(gap);
    } else {
      hide AllSpace, Strip;
      NoSpace();
      assert value + "" == value;
      SpaceAroundGoes(gap, value, "");
    }
  }

  lemma OnlySpace(gap: string)
    requires AllSpace(gap)
    ensures Strip(gap) == ""
  {
    assert gap + "" == gap;
    SpaceGoes(gap, "");
  }

  lemma JoinSpace(a: string, b: string)
    requires AllSpace(a) && AllSpace(b)
    ensures AllSpace(a + b)
  {
  }

  lemma Regrouped<T>(name: seq<T>, a: seq<T>, eq: seq<T>, b: seq<T>, value: seq<T>, c: seq<T>)
    ensures name + (a + (eq + (b + (value + c)))) == ((name + a) + (eq + (b + value))) + c
    ensures value == [] ==> name + (a + (eq + (b + (value + c)))) == ((name + a) + (eq + [])) + (b + c)
  {
  }

  /** The space around the name and the value does not matter. */
  lemma LineIsParsed(line: string, name: string, value: string, gaps: (string, string, string, string))
    requires Line(line, name, value, gaps) && IsName(name) && IsValue(value)
    ensures Parse(line) == Some(Setting(KeyOf(name), value))
  {
    hide AllSpace, Strip, Parse, KeyOf, IsSpace;
    var front := name + gaps.1;
    NoEquals(name, gaps.1);
    StripName(name, gaps.1);
    Regrouped(name, gaps.1, "=", gaps.2, value, gaps.3);
    if value == "" {
      var text := front + ("=" + "");
      NotSpace(text, '=');
      JoinSpace(gaps.2, gaps.3);
      SpaceAroundGoes(gaps.0, text, gaps.2 + gaps.3);
      ParseTrimmed(line, front, "");
      NoSpace();
      OnlySpace("");
    } else {
      var text := front + ("=" + (gaps.2 + value));
      assert text[0] == name[0] && text[|text| - 1] == value[|value| - 1];
      SpaceAroundGoes(gaps.0, text, gaps.3);
      StripValue(gaps.2, value);
      ParseTrimmed(line, front, gaps.2 + value);
    }
  }

  lemma NotSpace(text: string, c: char)
    requires c == '=' && text != "" && text[|text| - 1] == c
    ensures !IsSpace(text[|text| - 1])
  {
  }

  const NAMES: set<string> := {
    "MONGODB_PORT", "MONGODB_HOST", "MONGODB_USERNAME", "MONGODB_PASSWORD", "MONGODB_DATABASE_NAME",
    "MONGODB_DATABASE", "MONGODB_AUTH_SOURCE", "MONGODB_CONNECTION_STRING"}

  lemma OtherName(name: string)
    ensures name !in NAMES ==> KeyOf(name) == Unused
  {
  }

  lemma ParsedSnoc(lines: seq<string>, line: string)
    ensures Map(Parse, lines + [line]) == Map(Parse, lines) + [Parse(line)]
  {
  }

  /** The meaning of the readable lines, with one more line. */
  lemma LineSets(lines: seq<string>, line: string, name: string, value: string, gaps: (string, string, string, string),
      parsePort: string -> Option<int>)
    requires Line(line, name, value, gaps) && IsName(name) && IsValue(value)
    ensures
      var c, after := Meaning(Map(Parse, lines), parsePort), Meaning(Map(Parse, lines + [line]), parsePort);
      && (name == "MONGODB_PORT" && parsePort(value).Some? ==> after == c.(port := parsePort(value).value))
      && (name == "MONGODB_HOST" ==> after == c.(host := value))
      && (name == "MONGODB_USERNAME" ==> after == c.(username := value))
      && (name == "MONGODB_PASSWORD" ==> after == c.(password := value))
      && (name == "MONGODB_DATABASE_NAME" ==> after == c.(database := value))
      && (name == "MONGODB_DATABASE" ==>
            after == if c.database == "" || c.database == "tradingagents" then c.(database := value) else c)
      && (name == "MONGODB_AUTH_SOURCE" ==> after == c.(authSource := value))
      && (name == "MONGODB_CONNECTION_STRING" ==> after == c.(connection := Some(value)))
      && (name !in NAMES ==> after == c)
  {
    hide Meaning, Parse, Line, IsName, IsValue;
    LineIsParsed(line, name, value, gaps);
    ParsedSnoc(lines, line);
    OtherName(name);
    if KeyOf(name) != Port || parsePort(value).Some? {
      MeaningStep(Map(Parse, lines), Parse(line), parsePort);
    }
  }

  /** Without a line the script starts from its built-in configuration. */
  lemma NothingSet(parsePort: string -> Option<int>)
    ensures Meaning([], parsePort) == DEFAULTS ==
      Config(27017, "localhost", "admin", "tradingagents123", "tradingagents", "admin", None)
  {
    MeaningOfNothing(parsePort);
  }
}
