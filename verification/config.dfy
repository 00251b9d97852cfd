/**
 * `getConfig` of back/src/core/config.ts: a dotted-path lookup in the configuration tree with a
 * fallback default. JavaScript `undefined` is `None`; reading a property of `null` throws.
 */
module Config {
  import opened Wrappers
  import opened JsonValue

  /** One property read `node[key]`. */
  datatype Step = Defined(v: Json) | Undefined | TypeError

  /** What `getConfig` yields: a value (possibly `undefined`), or the `TypeError` thrown by reading through `null`. */
  datatype ConfigResult = Value(v: Option<Json>) | Throws

  /** `s.split(sep)`: the pieces between separators; an empty string gives one empty piece. */
  function Split(s: string, sep: char): (parts: seq<string>)
    ensures |parts| >= 1
    ensures forall i :: 0 <= i < |parts| ==> sep !in parts[i]
  {
    if s == [] then [""]
    else
      var rest := Split(s[1..], sep);
      if s[0] == sep then [""] + rest else [[s[0]] + rest[0]] + rest[1..]
  }

  /** `parts.join(sep)` */
  function Join(parts: seq<string>, sep: char): string
    requires |parts| >= 1
  {
    if |parts| == 1 then parts[0] else parts[0] + [sep] + Join(parts[1..], sep)
  }

  /** Splitting loses nothing: joining the pieces gives the path back. */
  lemma {:induction false} SplitJoin(s: string, sep: char)
    ensures Join(Split(s, sep), sep) == s
  {
    if s != [] {
      SplitJoin(s[1..], sep);
      var rest := Split(s[1..], sep);
      if s[0] != sep {
        if |rest| == 1 {
        } else {
          assert Join([[s[0]] + rest[0]] + rest[1..], sep) == [s[0]] + rest[0] + [sep] + Join(rest[1..], sep);
        }
      }
    }
  }

  /** A path splits into one piece exactly when it holds no separator. */
  lemma {:induction false} SplitSingle(s: string, sep: char)
    ensures |Split(s, sep)| == 1 <==> sep !in s
  {
    if s != [] {
      SplitSingle(s[1..], sep);
    }
  }

  /** The first piece is everything before the first separator. */
  lemma {:induction false} SplitAfterFirstSeparator(a: string, b: string, sep: char)
    requires sep !in a
    ensures Split(a + [sep] + b, sep) == [a] + Split(b, sep)
  {
    if a == [] {
      assert [] + [sep] + b == [sep] + b;
      assert ([sep] + b)[1..] == b;
    } else {
      assert (a + [sep] + b)[1..] == a[1..] + [sep] + b;
      SplitAfterFirstSeparator(a[1..], b, sep);
      assert [a[0]] + a[1..] == a;
    }
  }

  function DigitValue(c: char): nat
    requires '0' <= c <= '9'
  {
    (c as int) - ('0' as int)
  }

  /** A canonical array index: `"0"` or digits without a leading zero. */
  predicate IsIndex(key: string) {
    |key| > 0 && (forall i :: 0 <= i < |key| ==> '0' <= key[i] <= '9') && (key[0] == '0' ==> |key| == 1)
  }

  function ParseNat(key: string): nat
    requires forall i :: 0 <= i < |key| ==> '0' <= key[i] <= '9'
  {
    if key == [] then 0 else 10 * ParseNat(key[..|key| - 1]) + DigitValue(key[|key| - 1])
  }

  /** `node[key]` for own properties: object members and array items; `null` throws. */
  function Member(node: Json, key: string): Step {
    match node
    case JNull => TypeError
    case JObj(m) => if key in m then Defined(m[key]) else Undefined
    case JArr(items) => if IsIndex(key) && ParseNat(key) < |items| then Defined(items[ParseNat(key)]) else Undefined
    case _ => Undefined
  }

  /** Walks `segs` from `node` left to right, stopping at the first `undefined` or thrown error. */
  function Resolve(node: Json, segs: seq<string>): Step {
    if segs == [] then Defined(node)
    else
      match Member(node, segs[0])
      case Defined(v) => Resolve(v, segs[1..])
      case Undefined => Undefined
      case TypeError => TypeError
  }

  /** A path walk is the walk of its first part followed by the walk of the rest. */
  lemma {:induction false} ResolveAppend(node: Json, a: seq<string>, b: seq<string>)
    ensures Resolve(node, a + b) == match Resolve(node, a) case Defined(v) => Resolve(v, b) case other => other
  {
    if a != [] {
      assert (a + b)[1..] == a[1..] + b;
      match Member(node, a[0])
      case Defined(v) => ResolveAppend(v, a[1..], b);
      case Undefined =>
      case TypeError =>
    } else {
      assert a + b == b;
    }
  }

  /** `returnWrapper`: a defined value (even `null`) wins, `undefined` becomes the default. */
  function Wrap(step: Step, defaultValue: Option<Json>): (r: ConfigResult)
    ensures step.Defined? ==> r == Value(Some(step.v))
    ensures step.Undefined? ==> r == Value(defaultValue)
    ensures step.TypeError? ==> r == Throws
  {
    match step
    case Defined(v) => Value(Some(v))
    case Undefined => Value(defaultValue)
    case TypeError => Throws
  }

  /** `CONFIG || {}`: a truthy configuration as it is, anything falsy replaced by the empty object. */
  function Root(config: Json): (r: Json)
    ensures r != JNull
    ensures Truthy(config) ==> r == config
    ensures !Truthy(config) ==> r == JObj(map[])
  {
    if Truthy(config) then config else JObj(map[])
  }

  /** What `getConfig(path, defaultValue)` returns for configuration file `config`. */
  function GetConfigSpec(path: Option<string>, defaultValue: Option<Json>, config: Json): ConfigResult {
    if path.None? || path.value == "" then Value(Some(Root(config)))
    else Wrap(Resolve(Root(config), Split(path.value, '.')), defaultValue)
  }

  /** No path (or an empty one) gives the whole configuration object. */
  lemma NoPathGivesWholeConfig(defaultValue: Option<Json>, config: Json)
    ensures GetConfigSpec(None, defaultValue, config) == Value(Some(Root(config)))
    ensures GetConfigSpec(Some(""), defaultValue, config) == Value(Some(Root(config)))
  {
  }

  /** A one-segment path is `conf[path]` when defined and the default otherwise; it never throws. */
  lemma SingleSegment(path: string, defaultValue: Option<Json>, config: Json)
    requires path != "" && '.' !in path
    ensures GetConfigSpec(Some(path), defaultValue, config) ==
      match Member(Root(config), path)
      case Defined(v) => Value(Some(v))
      case _ => Value(defaultValue)
  {
    SplitSingle(path, '.');
    SplitJoin(path, '.');
    var segs := Split(path, '.');
    assert segs == [path];
    assert Resolve(Root(config), segs) == Member(Root(config), path) by {
      match Member(Root(config), path)
      case Defined(v) => assert Resolve(v, segs[1..]) == Defined(v);
      case Undefined =>
      case TypeError =>
    }
  }

  /**
   * A defined value is returned even when a default is given; the result is `undefined` only when both
   * the value and the default are missing.
   */
  lemma DefinedValueWins(path: string, d1: Option<Json>, d2: Option<Json>, config: Json)
    requires path != ""
    requires Resolve(Root(config), Split(path, '.')).Defined?
    ensures GetConfigSpec(Some(path), d1, config) == GetConfigSpec(Some(path), d2, config)
    ensures GetConfigSpec(Some(path), d1, config).Value? && GetConfigSpec(Some(path), d1, config).v.Some?
  {
  }

  lemma UndefinedOnlyWithoutDefault(path: Option<string>, defaultValue: Option<Json>, config: Json)
    requires GetConfigSpec(path, defaultValue, config) == Value(None)
    ensures defaultValue.None?
    ensures path.Some? && path.value != "" && Resolve(Root(config), Split(path.value, '.')).Undefined?
  {
  }

  /** `getConfig`: the walk as the source writes it, with the one-segment case handled first. */
  method GetConfig(path: Option<string>, defaultValue: Option<Json>, config: Json) returns (r: ConfigResult)
    ensures r == GetConfigSpec(path, defaultValue, config)
  {
    var conf := Root(config);
    if path.Some? && path.value != "" {
      var splitPath := Split(path.value, '.');
      if |splitPath| == 1 {
        SplitSingle(path.value, '.');
        SingleSegment(path.value, defaultValue, config);
        return Wrap(Member(conf, path.value), defaultValue);
      }
      var returnConf := Member(conf, splitPath[0]);
      if !returnConf.Defined? {
        return Wrap(returnConf, defaultValue);
      }
      for i := 1 to |splitPath|
        invariant returnConf.Defined?
        invariant Resolve(conf, splitPath) == Resolve(returnConf.v, splitPath[i..])
      {
        assert splitPath[i..][1..] == splitPath[i + 1..];
        returnConf := Member(returnConf.v, splitPath[i]);
        if !returnConf.Defined? {
          return Wrap(returnConf, defaultValue);
        }
      }
      return Wrap(returnConf, defaultValue);
    }
    return Value(Some(conf));
  }
}
