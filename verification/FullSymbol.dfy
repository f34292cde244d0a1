/** `fix_null_full_symbol`: the full symbol of a stock code, and the loop that fills it in where it is missing. */
module FullSymbol {
  import opened PyText
  import opened Snapshot
  import opened Wrappers

  // ---- the symbol ----

  /** The exchange suffix of a trimmed code; none for a code that is not recognised. */
  function Suffix(code: string): string {
    if |code| != 6 then ""
    else if code[..2] == "60" || code[..2] == "68" || code[..2] == "90" then ".SS"
    else if code[..2] == "00" || code[..2] == "30" || code[..2] == "20" then ".SZ"
    else if code[0] == '8' || code[0] == '4' then ".BJ"
    else ""
  }

  /** `generate_full_symbol` */
  function Symbol(code: string): string {
    if code == "" then "" else Strip(code) + Suffix(Strip(code))
  }

  lemma SymbolIs(code: string)
    ensures Symbol(code) == Strip(code) + Suffix(Strip(code))
    ensures Suffix(Strip(code)) == "" || (|Strip(code)| == 6 && |Suffix(Strip(code))| == 3 && Suffix(Strip(code))[0] == '.')
    ensures Suffix(Strip(code)) != "" ==> !IsSpace(Suffix(Strip(code))[2])
  {
  }

  lemma SymbolIsTrimmed(code: string)
    ensures Strip(Symbol(code)) == Symbol(code)
  {
    hide Suffix, Symbol, Strip;
    SymbolIs(code);
    var c, x := Strip(code), Suffix(Strip(code));
    StripEnds(code);
    if x == "" {
      assert c + x == c;
      Trimmed(c);
    } else {
      assert (c + x)[0] == c[0] && (c + x)[|c + x| - 1] == x[2];
      Trimmed(c + x);
    }
  }

  lemma StripEnds(s: string)
    ensures Strip(s) == "" || (!IsSpace(Strip(s)[0]) && !IsSpace(Strip(s)[|Strip(s)| - 1]))
  {
  }

  /** The full symbol of a full symbol is itself. */
  lemma SymbolTwice(code: string)
    ensures Symbol(Symbol(code)) == Symbol(code)
  {
    hide Suffix, Symbol, Strip;
    SymbolIs(code);
    SymbolIs(Symbol(code));
    SymbolIsTrimmed(code);
    var c, x := Strip(code), Suffix(Strip(code));
    if x == "" {
      assert c + x == c;
    } else {
      assert |c + x| == 9;
      assert c + x + "" == c + x;
    }
  }

  /** Two codes get one symbol exactly when they are the same code up to spaces, or one already is the other's symbol. */
  lemma SameSymbolIff(a: string, b: string)
    ensures Symbol(a) == Symbol(b) <==> Strip(a) == Strip(b) || Strip(a) == Symbol(b) || Strip(b) == Symbol(a)
  {
    hide Suffix, Symbol, Strip;
    SymbolIs(a);
    SymbolIs(b);
    if Strip(a) == Symbol(b) { SymbolOfTrimmed(a, b); }
    if Strip(b) == Symbol(a) { SymbolOfTrimmed(b, a); }
    if Symbol(a) == Symbol(b) {
      SameSum(Strip(a), Suffix(Strip(a)), Strip(b), Suffix(Strip(b)));
    }
  }

  lemma SymbolOfTrimmed(a: string, b: string)
    requires Strip(a) == Symbol(b)
    ensures Symbol(a) == Symbol(b)
  {
    hide Suffix, Symbol, Strip;
    SymbolIs(a);
    SymbolIs(Symbol(b));
    SymbolIsTrimmed(b);
    SymbolTwice(b);
  }

  lemma SameSum<T>(a: seq<T>, x: seq<T>, b: seq<T>, y: seq<T>)
    requires a + x == b + y
    ensures x == [] ==> a == b + y
    ensures y == [] ==> b == a + x
    ensures |a| == |b| ==> a == b && x == y
  {
    if |a| == |b| {
      assert (a + x)[..|a|] == a && (b + y)[..|b|] == b;
      assert (a + x)[|a|..] == x && (b + y)[|b|..] == y;
    }
  }

  /** The exchanges by the first characters of a six-character code. */
  function Prefixes(suffix: string): set<string> {
    match suffix
    case ".SS" => {"60", "68", "90"}
    case ".SZ" => {"00", "30", "20"}
    case ".BJ" => {"8", "4"}
    case _ => {}
  }

  predicate BeginsWith(code: string, prefixes: set<string>) { exists p | p in prefixes :: StartsWith(code, p) }

  lemma TwoCharacters(code: string, p: string)
    requires |code| == 6 && |p| == 2
    ensures StartsWith(code, p) <==> code[..2] == p
  {
  }

  lemma ShanghaiIff(code: string)
    requires |code| == 6
    ensures BeginsWith(code, Prefixes(".SS")) <==> code[..2] == "60" || code[..2] == "68" || code[..2] == "90"
  {
    hide StartsWith;
    TwoCharacters(code, "60");
    TwoCharacters(code, "68");
    TwoCharacters(code, "90");
  }

  lemma ShenzhenIff(code: string)
    requires |code| == 6
    ensures BeginsWith(code, Prefixes(".SZ")) <==> code[..2] == "00" || code[..2] == "30" || code[..2] == "20"
  {
    hide StartsWith;
    TwoCharacters(code, "00");
    TwoCharacters(code, "30");
    TwoCharacters(code, "20");
  }

  lemma BeijingIff(code: string)
    requires |code| == 6
    ensures BeginsWith(code, Prefixes(".BJ")) <==> code[0] == '8' || code[0] == '4'
  {
    hide StartsWith;
    OneCharacter(code, "8");
    OneCharacter(code, "4");
  }

  lemma OneCharacter(code: string, p: string)
    requires |code| == 6 && |p| == 1
    ensures StartsWith(code, p) <==> code[0] == p[0]
  {
  }

  /** The prefixes of the exchanges exclude each other, so a code gets a suffix exactly when it has a prefix of that exchange. */
  lemma SuffixIff(code: string, suffix: string)
    requires suffix == ".SS" || suffix == ".SZ" || suffix == ".BJ"
    ensures Suffix(code) == suffix <==> |code| == 6 && BeginsWith(code, Prefixes(suffix))
  {
    hide BeginsWith, Prefixes;
    if |code| == 6 {
      ShanghaiIff(code);
      ShenzhenIff(code);
      BeijingIff(code);
    }
  }

  /** The part before the first dot. */
  function CodeOf(symbol: string): string {
    if symbol == "" || symbol[0] == '.' then "" else [symbol[0]] + CodeOf(symbol[1..])
  }

  lemma {:induction false} CodeOfSum(a: string, x: string)
    requires '.' !in a && (x == "" || x[0] == '.')
    ensures CodeOf(a + x) == a
  {
    if a == "" {
      assert a + x == x;
    } else {
      assert (a + x)[1..] == a[1..] + x && (a + x)[0] == a[0];
      assert a[0] in a;
      CodeOfSum(a[1..], x);
    }
  }

  lemma {:induction false} CodeOfHasNoDot(symbol: string)
    ensures '.' !in CodeOf(symbol)
  {
    if symbol != "" && symbol[0] != '.' { CodeOfHasNoDot(symbol[1..]); }
  }

  /** The code can be read back from its symbol, up to spaces, exactly when it has no dot of its own. */
  lemma CodeReadBackIff(code: string)
    ensures CodeOf(Symbol(code)) == Strip(code) <==> '.' !in Strip(code)
  {
    hide Suffix, Symbol, Strip;
    SymbolIs(code);
    CodeOfHasNoDot(Symbol(code));
    if '.' !in Strip(code) { CodeOfSum(Strip(code), Suffix(Strip(code))); }
  }

  /** So codes without dots that differ by more than spaces get different symbols. */
  lemma DistinctCodesDistinctSymbols(a: string, b: string)
    requires '.' !in Strip(a) && '.' !in Strip(b)
    ensures Symbol(a) == Symbol(b) ==> Strip(a) == Strip(b)
  {
    hide Suffix, Symbol, Strip;
    CodeReadBackIff(a);
    CodeReadBackIff(b);
  }

  // ---- the repair loop ----

  datatype Stock = Stock(code: Option<string>, fullSymbol: Option<string>)

  type Stocks = map<int, Stock>

  /** How an update ends: reported as modified or as not, or raising with or without having been carried out. */
  datatype Update = Modified | Unmodified | RaisedBefore | RaisedAfter

  predicate Missing(s: Stock) { s.fullSymbol == None || s.fullSymbol == Some("") }

  function MissingIn(stocks: Stocks): set<int> { set id | id in stocks && Missing(stocks[id]) }

  /** The symbol that the loop would write; none if the record has no usable code. */
  function NewSymbol(s: Stock): Option<string> {
    if s.code == None || s.code == Some("") || Symbol(s.code.value) == "" then None else Some(Symbol(s.code.value))
  }

  predicate Carried(u: Update) { u.Modified? || u.RaisedAfter? }

  /** The records after the loop: those listed get their symbol where it can be made and the update is carried out. */
  function Repaired(stocks: Stocks, handled: set<int>, updates: int -> Update): Stocks {
    map id | id in stocks ::
      if id in handled && NewSymbol(stocks[id]).Some? && Carried(updates(id)) then stocks[id].(fullSymbol := NewSymbol(stocks[id]))
      else stocks[id]
  }

  /** The symbol of a trimmed code: with the suffix of the exchange whose prefix it has, or the code itself. */
  ghost predicate OnExchange(code: string, symbol: string) {
    if |code| == 6 && BeginsWith(code, Prefixes(".SS")) then symbol == code + ".SS"
    else if |code| == 6 && BeginsWith(code, Prefixes(".SZ")) then symbol == code + ".SZ"
    else if |code| == 6 && BeginsWith(code, Prefixes(".BJ")) then symbol == code + ".BJ"
    else symbol == code
  }

  lemma SymbolOnExchange(code: string)
    ensures OnExchange(Strip(code), Symbol(code)) && (Symbol(code) == "" <==> Strip(code) == "")
  {
    hide Suffix, Symbol, Strip, BeginsWith, Prefixes;
    SymbolIs(code);
    var c := Strip(code);
    SuffixIff(c, ".SS");
    SuffixIff(c, ".SZ");
    SuffixIff(c, ".BJ");
    SuffixesAre(c);
    assert c + "" == c;
  }

  lemma SuffixesAre(code: string)
    ensures Suffix(code) == ".SS" || Suffix(code) == ".SZ" || Suffix(code) == ".BJ" || Suffix(code) == ""
    ensures Suffix("") == ""
  {
  }

  /**
   What the script promises for each record: one without a full symbol but with a code gets the
   symbol on its exchange if the update is carried out, and nothing else changes.
   */
  ghost predicate RepairedTo(before: Stock, u: Update, after: Stock) {
    if (before.fullSymbol == None || before.fullSymbol == Some("")) && before.code.Some? && Strip(before.code.value) != ""
       && (u == Modified || u == RaisedAfter)
    then after.code == before.code && after.fullSymbol.Some? && OnExchange(Strip(before.code.value), after.fullSymbol.value)
    else after == before
  }

  lemma StripOfNothing()
    ensures Strip("") == ""
  {
  }

  lemma NewSymbolIs(s: Stock)
    ensures s.code.Some? && Strip(s.code.value) != "" ==>
      NewSymbol(s).Some? && OnExchange(Strip(s.code.value), NewSymbol(s).value)
    ensures s.code.None? || Strip(s.code.value) == "" ==> NewSymbol(s) == None
  {
    hide Symbol, Strip, OnExchange;
    StripOfNothing();
    if s.code.Some? { SymbolOnExchange(s.code.value); }
  }

  lemma EachIsRepaired(stocks: Stocks, updates: int -> Update, id: int)
    requires id in stocks
    ensures var after := Repaired(stocks, MissingIn(stocks), updates);
      id in after && RepairedTo(stocks[id], updates(id), after[id])
  {
    hide NewSymbol, Strip, OnExchange;
    NewSymbolIs(stocks[id]);
  }

  /** How a listed record is counted. */
  datatype Fate = Success | Error | Skipped

  function FateOf(s: Stock, u: Update): Fate {
    if NewSymbol(s) == None then Skipped else if u.Modified? then Success else Error
  }

  function Counted(stocks: Stocks, handled: set<int>, updates: int -> Update, fate: Fate): set<int> {
    set id | id in handled && id in stocks && FateOf(stocks[id], updates(id)) == fate
  }

  /** The records whose update was carried out but reported as an exception. */
  function Unreported(stocks: Stocks, updates: int -> Update): set<int> {
    set id | id in MissingIn(stocks) && NewSymbol(stocks[id]).Some? && updates(id).RaisedAfter?
  }

  lemma NewSymbolIsNotMissing(s: Stock)
    ensures NewSymbol(s).Some? ==> !Missing(s.(fullSymbol := NewSymbol(s)))
  {
    hide Symbol;
  }

  lemma RepairedStep(stocks: Stocks, handled: set<int>, updates: int -> Update, id: int)
    requires id in stocks && id !in handled
    ensures
      var now, next := Repaired(stocks, handled, updates), Repaired(stocks, handled + {id}, updates);
      && id in now && now[id] == stocks[id]
      && next == if NewSymbol(stocks[id]).Some? && Carried(updates(id)) then now[id := stocks[id].(fullSymbol := NewSymbol(stocks[id]))] else now
  {
    hide NewSymbol;
  }

  lemma CountedStep(stocks: Stocks, handled: set<int>, updates: int -> Update, id: int, fate: Fate)
    requires id in stocks && id !in handled
    ensures |Counted(stocks, handled + {id}, updates, fate)| ==
      |Counted(stocks, handled, updates, fate)| + if FateOf(stocks[id], updates(id)) == fate then 1 else 0
  {
    hide FateOf, NewSymbol;
    var now, next := Counted(stocks, handled, updates, fate), Counted(stocks, handled + {id}, updates, fate);
    assert next == if FateOf(stocks[id], updates(id)) == fate then now + {id} else now;
  }

  /** The records still without a symbol are the skipped ones and the errors whose update was not carried out. */
  lemma StillMissing(stocks: Stocks, updates: int -> Update)
    ensures
      var all := MissingIn(stocks);
      && MissingIn(Repaired(stocks, all, updates)) ==
           Counted(stocks, all, updates, Skipped) + (Counted(stocks, all, updates, Error) - Unreported(stocks, updates))
      && Unreported(stocks, updates) <= Counted(stocks, all, updates, Error)
  {
    hide NewSymbol, Missing;
    var all := MissingIn(stocks);
    forall id ensures id in MissingIn(Repaired(stocks, all, updates)) <==>
      id in Counted(stocks, all, updates, Skipped) + (Counted(stocks, all, updates, Error) - Unreported(stocks, updates))
    {
      if id in stocks { NewSymbolIsNotMissing(stocks[id]); }
    }
    forall id | id in Unreported(stocks, updates) ensures id in Counted(stocks, all, updates, Error) {
      assert id in stocks && FateOf(stocks[id], updates(id)) == Error;
    }
  }

  /** Their number is error plus skipped exactly when no update was carried out without being reported. */
  lemma StillMissingIff(stocks: Stocks, updates: int -> Update)
    ensures
      var all := MissingIn(stocks);
      var left := |MissingIn(Repaired(stocks, all, updates))|;
      var counted := |Counted(stocks, all, updates, Error)| + |Counted(stocks, all, updates, Skipped)|;
      && left + |Unreported(stocks, updates)| == counted
      && (left == counted <==> forall id | id in all && NewSymbol(stocks[id]).Some? :: !updates(id).RaisedAfter?)
  {
    hide NewSymbol, Repaired, Missing;
    var all := MissingIn(stocks);
    var skipped, errors := Counted(stocks, all, updates, Skipped), Counted(stocks, all, updates, Error);
    var unreported := Unreported(stocks, updates);
    StillMissing(stocks, updates);
    assert errors == (errors - unreported) + unreported;
    assert skipped !! errors;
    assert |skipped + (errors - unreported)| == |skipped| + |errors - unreported|;
    if |unreported| == 0 {
      forall id | id in all && NewSymbol(stocks[id]).Some? ensures !updates(id).RaisedAfter? { assert id !in unreported; }
    } else {
      SomeMember(unreported);
      var id :| id in unreported;
      assert id in all && NewSymbol(stocks[id]).Some? && updates(id).RaisedAfter?;
    }
  }

  class StockCollection {
    var stocks: Stocks

    /** `update_one`; `None` when it raises. */
    method UpdateOne(id: int, symbol: string, u: Update) returns (modified: Option<nat>)
      modifies this
      ensures stocks == if id in old(stocks) && Carried(u) then old(stocks)[id := old(stocks)[id].(fullSymbol := Some(symbol))] else old(stocks)
      ensures modified == if u.RaisedBefore? || u.RaisedAfter? then None else if u.Modified? then Some(1) else Some(0)
    {
      if id in stocks && (u.Modified? || u.RaisedAfter?) {
        stocks := stocks[id := stocks[id].(fullSymbol := Some(symbol))];
      }
      modified := if u.RaisedBefore? || u.RaisedAfter? then None else if u.Modified? then Some(1) else Some(0);
    }

    /** Every record without a symbol is counted once, as skipped, as a success or as an error. */
    method FixNullFullSymbol(updates: int -> Update) returns (total: nat, success: nat, error: nat, skipped: nat)
      modifies this
      ensures total == |MissingIn(old(stocks))| && success + error + skipped == total
      ensures stocks == Repaired(old(stocks), MissingIn(old(stocks)), updates) && stocks.Keys == old(stocks).Keys
      ensures forall id | id in stocks :: RepairedTo(old(stocks)[id], updates(id), stocks[id])
      ensures success == |Counted(old(stocks), MissingIn(old(stocks)), updates, Success)|
      ensures error == |Counted(old(stocks), MissingIn(old(stocks)), updates, Error)|
      ensures skipped == |Counted(old(stocks), MissingIn(old(stocks)), updates, Skipped)|
      ensures |MissingIn(stocks)| + |Unreported(old(stocks), updates)| == error + skipped
    {
      hide Repaired, RepairedTo, NewSymbol, Missing, MissingIn, Elements, Distinct, Counted, Unreported;
      ghost var before := stocks;
      var records := ListAll(MissingIn(stocks));
      total, success, error, skipped := |records|, 0, 0, 0;
      NothingHandled(before, updates);
      NoElements();
      ghost var handled: set<int> := {};
      for i := 0 to |records|
        invariant handled == Elements(records[..i])
        invariant stocks == Repaired(before, handled, updates)
        invariant success + error + skipped == i
        invariant success == |Counted(before, handled, updates, Success)|
        invariant error == |Counted(before, handled, updates, Error)|
        invariant skipped == |Counted(before, handled, updates, Skipped)|
      {
        var id := records[i];
        Listed(before, records, i);
        RepairedStep(before, handled, updates, id);
        CountedStep(before, handled, updates, id, Success);
        CountedStep(before, handled, updates, id, Error);
        CountedStep(before, handled, updates, id, Skipped);
        handled := handled + {id};
        var symbol := NewSymbol(stocks[id]);
        if symbol == None {
          skipped := skipped + 1;
        } else {
          var modified := UpdateOne(id, symbol.value, updates(id));
          if modified.Some? && modified.value > 0 {
            success := success + 1;
          } else {
            error := error + 1;
          }
        }
      }
      assert records[..|records|] == records;
      StillMissingIff(before, updates);
      AllAreRepaired(before, updates);
    }
  }

  lemma AllAreRepaired(stocks: Stocks, updates: int -> Update)
    ensures var after := Repaired(stocks, MissingIn(stocks), updates);
      after.Keys == stocks.Keys && forall id | id in stocks :: RepairedTo(stocks[id], updates(id), after[id])
  {
    hide NewSymbol, RepairedTo;
    forall id | id in stocks
      ensures RepairedTo(stocks[id], updates(id), Repaired(stocks, MissingIn(stocks), updates)[id])
    {
      EachIsRepaired(stocks, updates, id);
    }
  }

  lemma NothingHandled(stocks: Stocks, updates: int -> Update)
    ensures Repaired(stocks, {}, updates) == stocks
    ensures forall fate :: Counted(stocks, {}, updates, fate) == {}
  {
  }

  lemma Listed(stocks: Stocks, listed: seq<int>, i: nat)
    requires i < |listed| && Distinct(listed) && Elements(listed) == MissingIn(stocks)
    ensures listed[i] in stocks && Missing(stocks[listed[i]]) && listed[i] !in Elements(listed[..i])
    ensures Elements(listed[..i + 1]) == Elements(listed[..i]) + {listed[i]}
  {
    assert listed[i] in Elements(listed);
    assert listed[..i + 1] == listed[..i] + [listed[i]];
  }

  /** Two records repaired from dot-free codes that differ by more than spaces have different symbols. */
  lemma RepairedApart(stocks: Stocks, handled: set<int>, updates: int -> Update, a: int, b: int)
    requires a in handled && b in handled && a in stocks && b in stocks
    requires stocks[a].code.Some? && stocks[b].code.Some? && Strip(stocks[a].code.value) != Strip(stocks[b].code.value)
    requires '.' !in Strip(stocks[a].code.value) && '.' !in Strip(stocks[b].code.value)
    requires NewSymbol(stocks[a]).Some? && NewSymbol(stocks[b]).Some? && Carried(updates(a)) && Carried(updates(b))
    ensures Repaired(stocks, handled, updates)[a].fullSymbol != Repaired(stocks, handled, updates)[b].fullSymbol
  {
    hide Symbol, Strip;
    DistinctCodesDistinctSymbols(stocks[a].code.value, stocks[b].code.value);
  }
}
