/** `load_env_config`: the `.env` file as a sequence of lines, and what each line leaves in the configuration. */
module EnvConfig {
  import opened LineEdits
  import opened PyText
  import opened Wrappers

  datatype Config = Config(
    port: int, host: string, username: string, password: string,
    database: string, authSource: string, connection: Option<string>)

  const DEFAULT_DATABASE := "tradingagents"

  const DEFAULTS: Config := Config(27017, "localhost", "admin", "tradingagents123", DEFAULT_DATABASE, "admin", None)

  datatype Key = Port | Host | Username | Password | DatabaseName | Database | AuthSource | ConnectionString | Unused

  function KeyOf(name: string): Key {
    match name
    case "MONGODB_PORT" => Port
    case "MONGODB_HOST" => Host
    case "MONGODB_USERNAME" => Username
    case "MONGODB_PASSWORD" => Password
    case "MONGODB_DATABASE_NAME" => DatabaseName
    case "MONGODB_DATABASE" => Database
    case "MONGODB_AUTH_SOURCE" => AuthSource
    case "MONGODB_CONNECTION_STRING" => ConnectionString
    case _ => Unused
  }

  datatype Setting = Setting(key: Key, value: string)

  /** The place of the first `=`. */
  function Equals(line: string): (i: nat)
    ensures i <= |line| && (i < |line| ==> line[i] == '=') && forall j | 0 <= j < i :: line[j] != '='
  {
    if line == "" || line[0] == '=' then 0 else 1 + Equals(line[1..])
  }

  /** The setting on a line; a blank line, a comment and a line without `=` have none. */
  function Parse(raw: string): Option<Setting> {
    var line := Strip(raw);
    if line == "" || StartsWith(line, "#") || Equals(line) == |line| then None
    else Some(Setting(KeyOf(Strip(line[..Equals(line)])), Strip(line[Equals(line) + 1..])))
  }

  /** A database name that a fallback line does not replace. */
  predicate Settled(name: string) { name != "" && name != DEFAULT_DATABASE }

  /** One setting; a port that is not a number raises. */
  function Apply(c: Config, s: Setting, parsePort: string -> Option<int>): Option<Config> {
    match s.key
    case Port => if parsePort(s.value).Some? then Some(c.(port := parsePort(s.value).value)) else None
    case Host => Some(c.(host := s.value))
    case Username => Some(c.(username := s.value))
    case Password => Some(c.(password := s.value))
    case DatabaseName => Some(c.(database := s.value))
    case Database => Some(if Settled(c.database) then c else c.(database := s.value))
    case AuthSource => Some(c.(authSource := s.value))
    case ConnectionString => Some(c.(connection := Some(s.value)))
    case Unused => Some(c)
  }

  // ---- a file is the settings on its lines ----

  predicate Raises(entry: Option<Setting>, parsePort: string -> Option<int>) {
    entry.Some? && entry.value.key == Port && parsePort(entry.value.value).None?
  }

  /** The entries before the first one that raises. */
  function Readable(file: seq<Option<Setting>>, parsePort: string -> Option<int>): (n: nat)
    ensures n <= |file| && (forall i | 0 <= i < n :: !Raises(file[i], parsePort)) && (n < |file| ==> Raises(file[n], parsePort))
  {
    if file == [] || Raises(file[0], parsePort) then 0 else 1 + Readable(file[1..], parsePort)
  }

  // ---- what the settings mean, key by key ----

  /** The value of the last entry with a key. */
  function LastOf(file: seq<Option<Setting>>, key: Key): Option<string> {
    if file == [] then None
    else
      var s := file[|file| - 1];
      if s.Some? && s.value.key == key then Some(s.value.value) else LastOf(file[..|file| - 1], key)
  }

  function Or(found: Option<string>, fallback: string): string { if found.Some? then found.value else fallback }

  /** The names that the database key goes through: the last explicit one, or the default, then the fallbacks after it. */
  function Names(file: seq<Option<Setting>>): (names: seq<string>)
    ensures names != []
  {
    if file == [] then [DEFAULT_DATABASE]
    else
      var s := file[|file| - 1];
      if s.Some? && s.value.key == DatabaseName then [s.value.value]
      else Names(file[..|file| - 1]) + if s.Some? && s.value.key == Database then [s.value.value] else []
  }

  /** The first settled name, or the last name if none is settled. */
  function Choose(names: seq<string>): string
    requires names != []
  {
    if Settled(names[0]) || |names| == 1 then names[0] else Choose(names[1..])
  }

  lemma {:induction false} ChooseSnoc(names: seq<string>, name: string)
    requires names != []
    ensures Choose(names + [name]) == if Settled(Choose(names)) then Choose(names) else name
  {
    hide Settled;
    assert (names + [name])[0] == names[0];
    if !Settled(names[0]) {
      assert (names + [name])[1..] == names[1..] + [name];
      if |names| > 1 { ChooseSnoc(names[1..], name); }
    }
  }

  /** The meaning of a file without a bad port. */
  function Meaning(file: seq<Option<Setting>>, parsePort: string -> Option<int>): Config {
    Config(
      PortOf(LastOf(file, Port), parsePort), Or(LastOf(file, Host), DEFAULTS.host),
      Or(LastOf(file, Username), DEFAULTS.username), Or(LastOf(file, Password), DEFAULTS.password),
      Choose(Names(file)), Or(LastOf(file, AuthSource), DEFAULTS.authSource), LastOf(file, ConnectionString))
  }

  function PortOf(value: Option<string>, parsePort: string -> Option<int>): int {
    if value.Some? && parsePort(value.value).Some? then parsePort(value.value).value else DEFAULTS.port
  }

  lemma MeaningOfNothing(parsePort: string -> Option<int>)
    ensures Meaning([], parsePort) == DEFAULTS
  {
  }

  /** One more entry acts on the meaning as the loop body does. */
  lemma MeaningStep(file: seq<Option<Setting>>, entry: Option<Setting>, parsePort: string -> Option<int>)
    requires !Raises(entry, parsePort)
    ensures entry.None? ==> Meaning(file + [entry], parsePort) == Meaning(file, parsePort)
    ensures entry.Some? ==>
      Apply(Meaning(file, parsePort), entry.value, parsePort) == Some(Meaning(file + [entry], parsePort))
  {
    hide Settled, Choose, LastOf, Names;
    LastOfSnoc(file, entry, Port);
    LastOfSnoc(file, entry, Host);
    LastOfSnoc(file, entry, Username);
    LastOfSnoc(file, entry, Password);
    LastOfSnoc(file, entry, AuthSource);
    LastOfSnoc(file, entry, ConnectionString);
    NamesStep(file, entry);
  }

  lemma LastOfSnoc(file: seq<Option<Setting>>, entry: Option<Setting>, key: Key)
    ensures LastOf(file + [entry], key) ==
      if entry.Some? && entry.value.key == key then Some(entry.value.value) else LastOf(file, key)
  {
    assert (file + [entry])[..|file|] == file;
  }

  lemma NamesStep(file: seq<Option<Setting>>, entry: Option<Setting>)
    ensures
      var before := Choose(Names(file));
      Choose(Names(file + [entry])) ==
        if entry.Some? && entry.value.key == DatabaseName then entry.value.value
        else if entry.Some? && entry.value.key == Database && !Settled(before) then entry.value.value
        else before
  {
    hide Settled, Choose;
    assert (file + [entry])[..|file|] == file;
    var value := if entry.Some? then entry.value.value else "";
    ChooseSnoc(Names(file), value);
    ChooseOne(value);
    assert Names(file) + [] == Names(file);
  }

  lemma ChooseOne(name: string)
    ensures Choose([name]) == name
  {
  }

  /** Reading stops at the first bad port and keeps what the lines before it set. */
  method LoadEnvConfig(fileExists: bool, lines: seq<string>, parsePort: string -> Option<int>) returns (c: Config)
    ensures c ==
      if fileExists then Meaning(Map(Parse, lines)[..Readable(Map(Parse, lines), parsePort)], parsePort) else DEFAULTS
  {
    hide Meaning, Parse;
    ghost var file := Map(Parse, lines);
    c := DEFAULTS;
    MeaningOfNothing(parsePort);
    if fileExists {
      for i := 0 to |lines|
        invariant i <= Readable(file, parsePort)
        invariant c == Meaning(file[..i], parsePort)
      {
        var setting := Parse(lines[i]);
        if setting.Some? {
          var next := Apply(c, setting.value, parsePort);
          if next.None? { return; }
          c := next.value;
        }
        MeaningStep(file[..i], file[i], parsePort);
        assert file[..i + 1] == file[..i] + [file[i]];
      }
    }
  }

  // ---- the configuration announced after a bad port ----

  /** Nothing in the file sets anything to another value than the default. */
  predicate RepeatsDefaults(file: seq<Option<Setting>>, parsePort: string -> Option<int>) {
    && PortOf(LastOf(file, Port), parsePort) == DEFAULTS.port
    && Or(LastOf(file, Host), DEFAULTS.host) == DEFAULTS.host
    && Or(LastOf(file, Username), DEFAULTS.username) == DEFAULTS.username
    && Or(LastOf(file, Password), DEFAULTS.password) == DEFAULTS.password
    && Or(LastOf(file, AuthSource), DEFAULTS.authSource) == DEFAULTS.authSource
    && LastOf(file, ConnectionString) == None
    && (forall name | name in Names(file) :: !Settled(name))
    && Names(file)[|Names(file)| - 1] == DEFAULT_DATABASE
  }

  lemma MeansDefaultsIff(file: seq<Option<Setting>>, parsePort: string -> Option<int>)
    ensures Meaning(file, parsePort) == DEFAULTS <==> RepeatsDefaults(file, parsePort)
  {
    hide LastOf, Names;
    var names := Names(file);
    ChooseIs(names);
    assert forall i | 0 <= i < |names| :: names[i] in names;
    assert !Settled(DEFAULT_DATABASE);
  }

  /** On a file with an unreadable port the announced default configuration is the result exactly when the lines before it repeat the defaults. */
  lemma AnnouncedDefaultsIff(lines: seq<string>, parsePort: string -> Option<int>)
    ensures
      var file := Map(Parse, lines);
      var n := Readable(file, parsePort);
      n < |file| ==>
        Raises(file[n], parsePort) &&
        (Meaning(file[..n], parsePort) == DEFAULTS <==> RepeatsDefaults(file[..n], parsePort))
  {
    hide Meaning, RepeatsDefaults, Parse;
    var file := Map(Parse, lines);
    MeansDefaultsIff(file[..Readable(file, parsePort)], parsePort);
  }

  // ---- the database name ----

  predicate Explicit(entry: Option<Setting>) { entry.Some? && entry.value.key == DatabaseName }

  function Fallbacks(file: seq<Option<Setting>>): seq<string> {
    if file == [] then []
    else
      var s := file[|file| - 1];
      Fallbacks(file[..|file| - 1]) + if s.Some? && s.value.key == Database then [s.value.value] else []
  }

  /** Behind the last explicit name the candidates are the fallbacks that follow it, in order. */
  lemma {:induction false} NamesAfterExplicit(file: seq<Option<Setting>>, k: nat)
    requires k < |file| && Explicit(file[k]) && forall i | k < i < |file| :: !Explicit(file[i])
    ensures LastOf(file, DatabaseName) == Some(file[k].value.value)
    ensures Names(file) == [file[k].value.value] + Fallbacks(file[k + 1..])
    decreases |file|
  {
    var m := |file| - 1;
    if k < m {
      NamesAfterExplicit(file[..m], k);
      assert file[k + 1..][..m - k - 1] == file[..m][k + 1..];
    }
  }

  lemma {:induction false} NamesStartWithExplicit(file: seq<Option<Setting>>)
    ensures Names(file)[0] == Or(LastOf(file, DatabaseName), DEFAULT_DATABASE)
  {
    if file != [] { NamesStartWithExplicit(file[..|file| - 1]); }
  }

  /** Of several names the chosen one is settled if any is, and otherwise the last. */
  lemma {:induction false} ChooseIs(names: seq<string>)
    requires names != []
    ensures Settled(Choose(names)) <==> exists i | 0 <= i < |names| :: Settled(names[i])
    ensures !Settled(Choose(names)) ==> Choose(names) == names[|names| - 1]
  {
    hide Settled;
    if !Settled(names[0]) && |names| > 1 {
      ChooseIs(names[1..]);
      assert forall i | 1 <= i < |names| :: names[i] == names[1..][i - 1];
      if i :| 0 <= i < |names| && Settled(names[i]) { assert Settled(names[1..][i - 1]); }
    }
  }

  /**
   The last explicit name is the database exactly when it is neither empty nor the default, or
   no fallback follows it, or all that follow are empty or the default and the last one repeats it.
   */
  lemma ExplicitNameHoldsIff(file: seq<Option<Setting>>, parsePort: string -> Option<int>)
    ensures LastOf(file, DatabaseName).Some? ==>
      var n, names := LastOf(file, DatabaseName).value, Names(file);
      Meaning(file, parsePort).database == n <==>
        || Settled(n)
        || |names| == 1
        || ((forall i | 0 < i < |names| :: !Settled(names[i])) && names[|names| - 1] == n)
  {
    hide Settled, LastOf, Names;
    NamesStartWithExplicit(file);
    ChooseIs(Names(file));
  }

  /** An explicit name that is neither empty nor the default wins over every fallback, before or after it. */
  lemma ExplicitNameWins(file: seq<Option<Setting>>, parsePort: string -> Option<int>)
    ensures LastOf(file, DatabaseName).Some? && Settled(LastOf(file, DatabaseName).value) ==>
      Meaning(file, parsePort).database == LastOf(file, DatabaseName).value
  {
    hide Settled, LastOf, Names, Meaning;
    ExplicitNameHoldsIff(file, parsePort);
  }

  /** An explicit name that is empty or the default loses to the next fallback, although it is the more explicit one. */
  lemma ExplicitDefaultLoses(file: seq<Option<Setting>>, name: string, fallback: string, parsePort: string -> Option<int>)
    ensures
      var after := file + [Some(Setting(DatabaseName, name))] + [Some(Setting(Database, fallback))];
      Meaning(after, parsePort).database == if Settled(name) then name else fallback
  {
    hide Settled, Choose, Names;
    NamesStep(file, Some(Setting(DatabaseName, name)));
    NamesStep(file + [Some(Setting(DatabaseName, name))], Some(Setting(Database, fallback)));
  }

  // ---- a file on which the explicit name does not hold ----

  /** A line `NAME=VALUE` without spaces around its parts. */
  lemma ParseLine(line: string, name: string, value: string)
    requires |line| == |name| + 1 + |value| && line[..|name|] == name && line[|name|] == '=' && line[|name| + 1..] == value
    requires name != "" && value != "" && '=' !in name && name[0] != '#'
    requires !IsSpace(name[0]) && !IsSpace(name[|name| - 1]) && !IsSpace(value[0]) && !IsSpace(value[|value| - 1])
    ensures Parse(line) == Some(Setting(KeyOf(name), value))
  {
    hide Strip, KeyOf;
    assert line[0] == line[..|name|][0] && line[|line| - 1] == line[|name| + 1..][|value| - 1];
    Trimmed(line);
    Trimmed(name);
    Trimmed(value);
    assert forall j | 0 <= j < |name| :: line[j] == name[j] && name[j] in name;
    assert Equals(line) == |name|;
  }

  lemma ExplicitLine()
    ensures Parse("MONGODB_DATABASE_NAME=tradingagents") == Some(Setting(DatabaseName, DEFAULT_DATABASE))
  {
    hide Parse;
    ParseLine("MONGODB_DATABASE_NAME=tradingagents", "MONGODB_DATABASE_NAME", "tradingagents");
  }

  lemma FallbackLine()
    ensures Parse("MONGODB_DATABASE=research") == Some(Setting(Database, "research"))
  {
    hide Parse;
    ParseLine("MONGODB_DATABASE=research", "MONGODB_DATABASE", "research");
  }

  lemma UnsettledThenFallback(n: string, name: string, parsePort: string -> Option<int>)
    requires !Settled(n)
    ensures
      var file := [Some(Setting(DatabaseName, n)), Some(Setting(Database, name))];
      LastOf(file, DatabaseName) == Some(n) && Meaning(file, parsePort).database == name
  {
    hide Settled, Choose, Names, LastOf;
    var first, second := Some(Setting(DatabaseName, n)), Some(Setting(Database, name));
    NamesStep([], first);
    NamesStep([first], second);
    LastOfSnoc([], first, DatabaseName);
    LastOfSnoc([first], second, DatabaseName);
    assert [] + [first] == [first] && [first] + [second] == [first, second];
  }

  /** Two lines in which the explicit name is the default: the fallback is the database. */
  lemma FallbackReplacesDefault(parsePort: string -> Option<int>)
    ensures
      var file := Map(Parse, ["MONGODB_DATABASE_NAME=tradingagents", "MONGODB_DATABASE=research"]);
      LastOf(file, DatabaseName) == Some(DEFAULT_DATABASE) && Meaning(file, parsePort).database == "research"
  {
    hide Parse, Meaning, LastOf;
    ExplicitLine();
    FallbackLine();
    UnsettledThenFallback(DEFAULT_DATABASE, "research", parsePort);
    assert Map(Parse, ["MONGODB_DATABASE_NAME=tradingagents", "MONGODB_DATABASE=research"]) ==
      [Some(Setting(DatabaseName, DEFAULT_DATABASE)), Some(Setting(Database, "research"))];
  }

  // ---- a file on which the announced defaults are not the result ----

  lemma HostLine()
    ensures Parse("MONGODB_HOST=db") == Some(Setting(Host, "db"))
  {
    hide Parse;
    ParseLine("MONGODB_HOST=db", "MONGODB_HOST", "db");
  }

  lemma PortLine()
    ensures Parse("MONGODB_PORT=x") == Some(Setting(Port, "x"))
  {
    hide Parse;
    ParseLine("MONGODB_PORT=x", "MONGODB_PORT", "x");
  }

  lemma ReadableIs(file: seq<Option<Setting>>, parsePort: string -> Option<int>, n: nat)
    requires n < |file| && Raises(file[n], parsePort) && forall i | 0 <= i < n :: !Raises(file[i], parsePort)
    ensures Readable(file, parsePort) == n
  {
  }

  /** Two lines, the second with an unreadable port: the host of the first stays. */
  lemma BadPortKeepsHost(parsePort: string -> Option<int>)
    requires parsePort("x") == None
    ensures
      var file := Map(Parse, ["MONGODB_HOST=db", "MONGODB_PORT=x"]);
      var result := Meaning(file[..Readable(file, parsePort)], parsePort);
      result.host == "db" && result != DEFAULTS
  {
    hide Parse, LastOf;
    HostLine();
    PortLine();
    var file := Map(Parse, ["MONGODB_HOST=db", "MONGODB_PORT=x"]);
    ReadableIs(file, parsePort, 1);
    LastOfSnoc([], file[0], Host);
    assert [] + [file[0]] == file[..1];
  }
}
