/** `convert_to_bson`: how JSON values become the values that the database stores. */
module BsonConvert {
  import opened PyText
  import opened Wrappers

  /** JSON values, and what the database adds to them: object ids, dates and the ids it generates itself. */
  datatype Value =
    | Null | Bool(b: bool) | Num(x: real) | Str(text: string)
    | Arr(items: seq<Value>)
    | Obj(fields: Doc)
    | Oid(id: nat) | Date(instant: int) | Generated(serial: nat)

  type Doc = map<string, Value>

  /** `ObjectId(text)` and `datetime.fromisoformat(text)` with its `Z` replaced; `None` where they raise. */
  datatype Parsers = Parsers(objectId: string -> Option<nat>, isoDate: string -> Option<int>)

  predicate IdKey(key: string) { key == "_id" || EndsWith(key, "_id") }

  predicate DateKey(key: string) {
    EndsWith(key, "_at") || key == "created_at" || key == "updated_at" || key == "last_login" || key == "added_at"
  }

  predicate EndsIn(key: string, end: string, front: string) { key == front + end }

  /** The keys whose strings are parsed: those that end like an id, and those that end like a date or are the last login. */
  lemma SelectedKeysIff(key: string)
    ensures IdKey(key) <==> exists front :: EndsIn(key, "_id", front)
    ensures DateKey(key) <==> key == "last_login" || exists front :: EndsIn(key, "_at", front)
  {
    hide EndsWith;
    EndsIff(key, "_id");
    EndsIff(key, "_at");
    EndsAre();
  }

  lemma EndsIff(key: string, end: string)
    ensures EndsWith(key, end) <==> exists front :: EndsIn(key, end, front)
  {
    if EndsWith(key, end) {
      var front := key[..|key| - |end|];
      assert EndsIn(key, end, front);
    }
  }

  lemma EndsAre()
    ensures EndsWith("_id", "_id") && EndsWith("created_at", "_at") && EndsWith("updated_at", "_at") && EndsWith("added_at", "_at")
  {
  }

  /** What a string directly under a key is parsed to, if the key selects it and the parse succeeds. */
  function Parsed(p: Parsers, key: string, v: Value): Option<Value> {
    if IdKey(key) && v.Str? && |v.text| == 24 && p.objectId(v.text).Some? then Some(Oid(p.objectId(v.text).value))
    else if DateKey(key) && v.Str? && p.isoDate(v.text).Some? then Some(Date(p.isoDate(v.text).value))
    else None
  }

  function Convert(p: Parsers, v: Value): Value
    decreases v, 0
  {
    match v
    case Obj(fields) => Obj(map k | k in fields :: ConvertField(p, k, fields[k]))
    case Arr(items) => Arr(seq(|items|, i requires 0 <= i < |items| => Convert(p, items[i])))
    case _ => v
  }

  function ConvertField(p: Parsers, key: string, v: Value): Value
    decreases v, 1
  {
    if Parsed(p, key, v).Some? then Parsed(p, key, v).value else Convert(p, v)
  }

  function ConvertDoc(p: Parsers, d: Doc): Doc { map k | k in d :: ConvertField(p, k, d[k]) }

  lemma ParsedIsNew(p: Parsers, key: string, v: Value)
    ensures Parsed(p, key, v).Some? ==> v.Str? && (Parsed(p, key, v).value.Oid? || Parsed(p, key, v).value.Date?)
  {
  }

  /** A field changes exactly when it is a string that its key selects and that parses; then it is the parsed id or date. */
  lemma FieldChangesIff(p: Parsers, key: string, text: string)
    ensures
      var asId := IdKey(key) && |text| == 24 && p.objectId(text).Some?;
      var asDate := DateKey(key) && p.isoDate(text).Some?;
      && (ConvertField(p, key, Str(text)) != Str(text) <==> asId || asDate)
      && (asId ==> ConvertField(p, key, Str(text)) == Oid(p.objectId(text).value))
      && (asDate && !asId ==> ConvertField(p, key, Str(text)) == Date(p.isoDate(text).value))
  {
    hide IdKey, DateKey;
  }

  /** Converting a second time changes nothing, on every nested value. */
  lemma {:induction false} ConvertTwice(p: Parsers, v: Value)
    ensures Convert(p, Convert(p, v)) == Convert(p, v)
    decreases v, 0
  {
    hide Parsed;
    match v {
      case Obj(fields) =>
        forall k | k in fields ensures ConvertField(p, k, ConvertField(p, k, fields[k])) == ConvertField(p, k, fields[k]) {
          ConvertFieldTwice(p, k, fields[k]);
        }
      case Arr(items) =>
        forall i | 0 <= i < |items| ensures Convert(p, Convert(p, items[i])) == Convert(p, items[i]) {
          ConvertTwice(p, items[i]);
        }
      case _ =>
    }
  }

  lemma {:induction false} ConvertFieldTwice(p: Parsers, key: string, v: Value)
    ensures ConvertField(p, key, ConvertField(p, key, v)) == ConvertField(p, key, v)
    decreases v, 1
  {
    hide Parsed;
    ParsedIsNew(p, key, v);
    ParsedIsNew(p, key, ConvertField(p, key, v));
    if Parsed(p, key, v) == None { ConvertTwice(p, v); }
  }

  // ---- the shape of a value: what is found along a path ----

  datatype Step = Key(name: string) | Index(i: nat)

  type Path = seq<Step>

  function At(v: Value, path: Path): Option<Value>
    decreases |path|
  {
    if path == [] then Some(v)
    else match path[0]
      case Key(name) => if v.Obj? && name in v.fields then At(v.fields[name], path[1..]) else None
      case Index(i) => if v.Arr? && i < |v.items| then At(v.items[i], path[1..]) else None
  }

  /** The conversion of a value found at the end of a path depends only on the last step and the value. */
  function ConvertAt(p: Parsers, path: Path, v: Value): Value {
    if path != [] && path[|path| - 1].Key? then ConvertField(p, path[|path| - 1].name, v) else Convert(p, v)
  }

  /** Same paths lead somewhere before and after, and what is found is the conversion of what was found. */
  lemma {:induction false} ConvertKeepsPaths(p: Parsers, v: Value, path: Path)
    ensures At(v, path).None? ==> At(Convert(p, v), path).None?
    ensures At(v, path).Some? ==> At(Convert(p, v), path) == Some(ConvertAt(p, path, At(v, path).value))
    decreases |path|
  {
    hide Parsed;
    if path != [] {
      match path[0]
      case Key(name) =>
        if v.Obj? && name in v.fields {
          ParsedIsNew(p, name, v.fields[name]);
          if |path| > 1 { assert path[1..][|path| - 2] == path[|path| - 1]; }
          ConvertKeepsPaths(p, v.fields[name], path[1..]);
        }
      case Index(i) =>
        if v.Arr? && i < |v.items| {
          if |path| > 1 { assert path[1..][|path| - 2] == path[|path| - 1]; }
          ConvertKeepsPaths(p, v.items[i], path[1..]);
        }
    }
  }

  /**
   The conversion keeps the shape: the same keys in every dictionary, the same length of every
   list, and a leaf changes only if it is a string directly under a key that the id or the
   date test selects.
   */
  lemma ConvertKeepsShape(p: Parsers, v: Value, path: Path)
    requires At(v, path).Some?
    ensures At(Convert(p, v), path).Some?
    ensures
      var x, y := At(v, path).value, At(Convert(p, v), path).value;
      && (x.Obj? ==> y.Obj? && y.fields.Keys == x.fields.Keys)
      && (x.Arr? ==> y.Arr? && |y.items| == |x.items|)
      && (!x.Obj? && !x.Arr? && y != x ==>
            x.Str? && path != [] && path[|path| - 1].Key? && (IdKey(path[|path| - 1].name) || DateKey(path[|path| - 1].name)))
  {
    hide At;
    ConvertKeepsPaths(p, v, path);
    ConvertKeepsHead(p, path, At(v, path).value);
  }

  lemma ConvertKeepsHead(p: Parsers, path: Path, x: Value)
    ensures
      var y := ConvertAt(p, path, x);
      && (x.Obj? ==> y.Obj? && y.fields.Keys == x.fields.Keys)
      && (x.Arr? ==> y.Arr? && |y.items| == |x.items|)
      && (!x.Obj? && !x.Arr? && y != x ==>
            x.Str? && path != [] && path[|path| - 1].Key? && (IdKey(path[|path| - 1].name) || DateKey(path[|path| - 1].name)))
  {
    hide EndsWith;
    var whole := Convert(p, x);
    assert x.Obj? ==> whole.Obj? && whole.fields.Keys == x.fields.Keys;
    assert x.Arr? ==> whole.Arr? && |whole.items| == |x.items|;
    assert !x.Obj? && !x.Arr? ==> whole == x;
  }
}
