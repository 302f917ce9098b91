/**
 * The hierarchical file configuration of pkg/utils/config.go: a map decoded
 * from a JSON or YAML file, read with dotted keys ("server.http.addr") that
 * walk nested maps, and typed getters that fall back to a zero value.
 */
module Config {
  import opened Wrappers

  /**
   * A decoded configuration value (Go's `interface{}` as the decoders fill
   * it). `VNull` is Go's nil: a JSON `null`, and also what a lookup of a
   * missing key returns. `VOther` stands for lists and other decoded shapes.
   */
  datatype Value =
    | VMap(m: map<string, Value>)
    | VStr(s: string)
    | VInt(i: int)
    | VFloat(f: real)
    | VBool(b: bool)
    | VNull
    | VOther

  // ---------------------------------------------------------------------
  // strings.Split with a one-character separator, and its inverse.

  /**
   * `strings.Split(s, [sep])`: the pieces of `s` between separators, in
   * order; there is always at least one piece, and no piece holds `sep`.
   */
  function Split(s: string, sep: char): (parts: seq<string>)
    ensures |parts| >= 1
    ensures forall i :: 0 <= i < |parts| ==> sep !in parts[i]
    decreases |s|
  {
    if s == [] then [""]
    else
      var rest := Split(s[1..], sep);
      if s[0] == sep then [""] + rest
      else [[s[0]] + rest[0]] + rest[1..]
  }

  /** `strings.Join(parts, [sep])`. */
  function Join(parts: seq<string>, sep: char): string
  {
    if |parts| == 0 then ""
    else if |parts| == 1 then parts[0]
    else parts[0] + [sep] + Join(parts[1..], sep)
  }

  /** A character put in front of the first piece comes out in front of the join. */
  lemma JoinPrependToHead(c: char, head: string, tail: seq<string>, sep: char)
    ensures Join([[c] + head] + tail, sep) == [c] + Join([head] + tail, sep)
  {
  }

  /** Joining the pieces with the separator gives back the string. */
  lemma {:induction false} JoinSplit(s: string, sep: char)
    ensures Join(Split(s, sep), sep) == s
    decreases |s|
  {
    if s != [] {
      var rest := Split(s[1..], sep);
      JoinSplit(s[1..], sep);
      if s[0] == sep {
        assert ([""] + rest)[1..] == rest;
        assert s == [sep] + s[1..];
      } else {
        assert rest == [rest[0]] + rest[1..];
        JoinPrependToHead(s[0], rest[0], rest[1..], sep);
        assert s == [s[0]] + s[1..];
      }
    }
  }

  /** A separator-free string is a single piece. */
  lemma {:induction false} SplitNoSeparator(a: string, sep: char)
    requires sep !in a
    ensures Split(a, sep) == [a]
    decreases |a|
  {
    if a != [] {
      SplitNoSeparator(a[1..], sep);
      assert [a[0]] + a[1..] == a;
    }
  }

  /** A separator-free first segment splits off as the first piece. */
  lemma {:induction false} SplitFirstSegment(a: string, rest: string, sep: char)
    requires sep !in a
    ensures Split(a + [sep] + rest, sep) == [a] + Split(rest, sep)
    decreases |a|
  {
    var s := a + [sep] + rest;
    if a == [] {
      assert s[1..] == rest;
    } else {
      assert s[1..] == a[1..] + [sep] + rest;
      SplitFirstSegment(a[1..], rest, sep);
      assert [a[0]] + a[1..] == a;
    }
  }

  /** Splitting the join of separator-free pieces gives back the pieces. */
  lemma {:induction false} SplitJoin(parts: seq<string>, sep: char)
    requires |parts| >= 1
    requires forall i :: 0 <= i < |parts| ==> sep !in parts[i]
    ensures Split(Join(parts, sep), sep) == parts
    decreases |parts|
  {
    if |parts| == 1 {
      SplitNoSeparator(parts[0], sep);
    } else {
      SplitJoin(parts[1..], sep);
      SplitFirstSegment(parts[0], Join(parts[1..], sep), sep);
      assert [parts[0]] + parts[1..] == parts;
    }
  }

  // ---------------------------------------------------------------------
  // getNestedValue

  /**
   * What `getNestedValue` returns for the key segments `keys`, starting at
   * the map `current`: nil as soon as a segment is missing, the first value
   * that is not a map, or the map reached after the last segment.
   */
  function Lookup(current: map<string, Value>, keys: seq<string>): Value
    decreases |keys|
  {
    if |keys| == 0 then VMap(current)
    else if keys[0] !in current then VNull
    else match current[keys[0]]
      case VMap(m) => Lookup(m, keys[1..])
      case v => v
  }

  /**
   * Looking up `keys + more` continues from the map that `keys` reaches; a
   * lookup that stopped at a missing key or at a non-map value ignores
   * the further segments.
   */
  lemma {:induction false} LookupAppend(current: map<string, Value>, keys: seq<string>, more: seq<string>)
    ensures Lookup(current, keys).VMap? ==>
      Lookup(current, keys + more) == Lookup(Lookup(current, keys).m, more)
    ensures !Lookup(current, keys).VMap? ==>
      Lookup(current, keys + more) == Lookup(current, keys)
    decreases |keys|
  {
    if |keys| == 0 {
      assert keys + more == more;
    } else {
      assert (keys + more)[0] == keys[0];
      assert (keys + more)[1..] == keys[1..] + more;
      if keys[0] in current && current[keys[0]].VMap? {
        LookupAppend(current[keys[0]].m, keys[1..], more);
      }
    }
  }

  /** Once the segments before `i` have reached the map `m`, a missing segment `i` gives nil. */
  lemma MissingSegmentGivesNil(data: map<string, Value>, keys: seq<string>, i: nat, m: map<string, Value>)
    requires i < |keys| && Lookup(data, keys[..i]) == VMap(m)
    requires keys[i] !in m
    ensures Lookup(data, keys) == VNull
  {
    LookupAppend(data, keys[..i], keys[i..]);
    assert keys[..i] + keys[i..] == keys;
  }

  /**
   * Once the segments before `i` have reached the map `m`, a segment `i`
   * whose value is not a map yields that value, whatever segments follow.
   */
  lemma NonMapValueEndsLookup(data: map<string, Value>, keys: seq<string>, i: nat, m: map<string, Value>)
    requires i < |keys| && Lookup(data, keys[..i]) == VMap(m)
    requires keys[i] in m && !m[keys[i]].VMap?
    ensures Lookup(data, keys) == m[keys[i]]
  {
    LookupAppend(data, keys[..i], keys[i..]);
    assert keys[..i] + keys[i..] == keys;
  }

  /**
   * A dotted key `a.rest` with a dot-free first segment `a`: nil when `a` is
   * missing, `data[a]` when it is not a map, and otherwise the lookup of
   * `rest` inside `data[a]`.
   */
  lemma DottedKey(data: map<string, Value>, a: string, rest: string)
    requires '.' !in a
    ensures Lookup(data, Split(a + "." + rest, '.')) ==
      if a !in data then VNull
      else if data[a].VMap? then Lookup(data[a].m, Split(rest, '.'))
      else data[a]
  {
    SplitFirstSegment(a, rest, '.');
    var keys := [a] + Split(rest, '.');
    assert keys[0] == a && keys[1..] == Split(rest, '.');
  }

  /** `getNestedValue`: the `for` loop that walks `current` down the key's segments. */
  method GetNestedValue(data: map<string, Value>, key: string) returns (v: Value)
    ensures v == Lookup(data, Split(key, '.'))
  {
    var keys := Split(key, '.');
    var current := data;
    for i := 0 to |keys|
      invariant Lookup(current, keys[i..]) == Lookup(data, keys)
    {
      var k := keys[i];
      assert keys[i..][0] == k && keys[i..][1..] == keys[i + 1..];
      if k in current {
        var val := current[k];
        if val.VMap? {
          current := val.m;
        } else {
          return val;
        }
      } else {
        return VNull;
      }
    }
    return VMap(current);
  }

  /** The example of a scalar under a longer key: "a.b" with `a = 5` gives 5. */
  lemma ScalarStopsLookup()
    ensures Lookup(map["a" := VInt(5)], Split("a.b", '.')) == VInt(5)
  {
    DottedKey(map["a" := VInt(5)], "a", "b");
  }

  // ---------------------------------------------------------------------
  // Typed getters

  /** Go's `int(f)` for a float64 in range: truncation toward zero. */
  function TruncateToInt(f: real): (i: int)
    ensures 0.0 <= f ==> 0 <= i && i as real <= f < i as real + 1.0
    ensures f < 0.0 ==> i <= 0 && i as real - 1.0 < f <= i as real
  {
    if f >= 0.0 then f.Floor else -((-f).Floor)
  }

  /** The configuration, as `FileConfig` holds it; no method of `FileConfig` changes `data`. */
  class FileConfig {
    const data: map<string, Value>

    constructor (data: map<string, Value>)
      ensures this.data == data
    {
      this.data := data;
    }

    /** `Get`: the nested lookup of the dotted key. */
    method Get(key: string) returns (v: Value)
      ensures v == Lookup(data, Split(key, '.'))
    {
      v := GetNestedValue(data, key);
    }

    /** `GetString`: the value when it is a string, `""` otherwise (missing keys included). */
    method GetString(key: string) returns (s: string)
      ensures Lookup(data, Split(key, '.')).VStr? ==> s == Lookup(data, Split(key, '.')).s
      ensures !Lookup(data, Split(key, '.')).VStr? ==> s == ""
    {
      var v := Get(key);
      if v != VNull {
        if v.VStr? {
          return v.s;
        }
      }
      return "";
    }

    /**
     * `GetInt`: the value when it is an int, a float truncated toward zero,
     * and 0 for anything else (missing keys included).
     */
    method GetInt(key: string) returns (n: int)
      ensures Lookup(data, Split(key, '.')).VInt? ==> n == Lookup(data, Split(key, '.')).i
      ensures Lookup(data, Split(key, '.')).VFloat? ==> n == TruncateToInt(Lookup(data, Split(key, '.')).f)
      ensures !Lookup(data, Split(key, '.')).VInt? && !Lookup(data, Split(key, '.')).VFloat? ==> n == 0
    {
      var v := Get(key);
      if v != VNull {
        match v
        case VInt(i) => return i;
        case VFloat(f) => return TruncateToInt(f);
        case _ =>
      }
      return 0;
    }

    /** `GetBool`: the value when it is a bool, `false` otherwise (missing keys included). */
    method GetBool(key: string) returns (b: bool)
      ensures Lookup(data, Split(key, '.')).VBool? ==> b == Lookup(data, Split(key, '.')).b
      ensures !Lookup(data, Split(key, '.')).VBool? ==> !b
    {
      var v := Get(key);
      if v != VNull {
        if v.VBool? {
          return v.b;
        }
      }
      return false;
    }
  }

  // ---------------------------------------------------------------------
  // NewFileConfig: the format chosen by the file extension

  /** ASCII case mapping of one character, as `strings.ToLower` does it on ASCII. */
  function LowerChar(c: char): char
  {
    if 'A' <= c <= 'Z' then (c as int + 32) as char else c
  }

  /** `strings.ToLower`, on ASCII letters. */
  function ToLower(s: string): (r: string)
    ensures |r| == |s|
    ensures forall i :: 0 <= i < |s| ==> r[i] == LowerChar(s[i])
  {
    seq(|s|, i requires 0 <= i < |s| => LowerChar(s[i]))
  }

  /** `strings.LastIndex(s, [c])`: the position of the last `c`, or -1 when there is none. */
  function LastIndex(s: string, c: char): (i: int)
    ensures -1 <= i < |s|
    ensures i == -1 <==> c !in s
    ensures 0 <= i ==> s[i] == c && c !in s[i + 1..]
  {
    if s == [] then -1
    else if s[|s| - 1] == c then |s| - 1
    else
      assert s == s[..|s| - 1] + [s[|s| - 1]];
      LastIndex(s[..|s| - 1], c)
  }

  /**
   * The extension `NewFileConfig` dispatches on: the lower-cased text after
   * the last '.', or the whole path lower-cased when it has no '.'.
   */
  function Extension(filepath: string): (ext: string)
    ensures |ext| <= |filepath| && '.' !in ext
    ensures ext == ToLower(filepath[|filepath| - |ext|..])
    ensures |ext| < |filepath| <==> '.' in filepath
    ensures |ext| < |filepath| ==> filepath[|filepath| - |ext| - 1] == '.'
  {
    var suffix := filepath[LastIndex(filepath, '.') + 1..];
    assert forall i :: 0 <= i < |suffix| ==> suffix[i] != '.';
    ToLower(suffix)
  }

  /** The decoders `NewFileConfig` can choose. */
  datatype Format = Json | Yaml

  /** The `switch ext`: "json" for JSON, "yaml" or "yml" for YAML, an error otherwise. */
  function SelectFormat(ext: string): (r: Result<Format>)
    ensures r == Ok(Json) <==> ext == "json"
    ensures r == Ok(Yaml) <==> ext == "yaml" || ext == "yml"
    ensures r.Err? ==> r.error == "unsupported config file format: " + ext
  {
    match ext
    case "json" => Ok(Json)
    case "yaml" | "yml" => Ok(Yaml)
    case _ => Err("unsupported config file format: " + ext)
  }

  /**
   * The data `NewFileConfig` ends up with. `read` is the outcome of reading
   * the file and `parse` the outcome of the chosen decoder on its bytes,
   * both inputs here. A read error is reported before an unsupported format.
   */
  function LoadData(filepath: string, read: Result<seq<bv8>>,
                    parse: (Format, seq<bv8>) -> Result<map<string, Value>>): (r: Result<map<string, Value>>)
    ensures read.Err? ==> r == Err("read config file error: " + read.error)
    ensures read.Ok? && SelectFormat(Extension(filepath)).Err? ==>
      r == Err("unsupported config file format: " + Extension(filepath))
    ensures (read.Ok? && SelectFormat(Extension(filepath)).Ok? &&
             parse(SelectFormat(Extension(filepath)).value, read.value).Err?) ==>
      r == Err("parse config file error: " + parse(SelectFormat(Extension(filepath)).value, read.value).error)
    ensures (read.Ok? && SelectFormat(Extension(filepath)).Ok? &&
             parse(SelectFormat(Extension(filepath)).value, read.value).Ok?) ==>
      r == parse(SelectFormat(Extension(filepath)).value, read.value)
  {
    var ext := Extension(filepath);
    if read.Err? then Err("read config file error: " + read.error)
    else match SelectFormat(ext)
      case Err(e) => Err(e)
      case Ok(format) =>
        match parse(format, read.value)
        case Err(e) => Err("parse config file error: " + e)
        case Ok(data) => Ok(data)
  }

  /** `NewFileConfig`: the loaded data wrapped in a new `FileConfig`, or the error. */
  method NewFileConfig(filepath: string, read: Result<seq<bv8>>,
                       parse: (Format, seq<bv8>) -> Result<map<string, Value>>) returns (r: Result<FileConfig>)
    ensures LoadData(filepath, read, parse).Err? ==> r == Err(LoadData(filepath, read, parse).error)
    ensures LoadData(filepath, read, parse).Ok? ==>
      r.Ok? && fresh(r.value) && r.value.data == LoadData(filepath, read, parse).value
  {
    var loaded := LoadData(filepath, read, parse);
    if loaded.Err? {
      return Err(loaded.error);
    }
    var c := new FileConfig(loaded.value);
    return Ok(c);
  }

  /** An upper-case extension is accepted. */
  lemma UpperCaseExtension()
    ensures SelectFormat(Extension("a.YML")) == Ok(Yaml)
  {
  }

  /** Only the text after the last '.' counts. */
  lemma LastDotDecides()
    ensures SelectFormat(Extension("a.json.x")).Err?
  {
  }

  /** A path without '.' is its own extension. */
  lemma NoDotWholePath()
    ensures SelectFormat(Extension("json")) == Ok(Json)
  {
  }
}
