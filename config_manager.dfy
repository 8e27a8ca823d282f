/**
 * The configuration manager: defaults overlaid by the config file, read and
 * written by plain or dotted keys ("model_parameters.temperature") that walk
 * nested dicts.
 */
module Config {
  import opened Wrappers
  import opened JsonValue
  import opened Text

  /** The config file: missing, unreadable, or decoded to some JSON value. */
  datatype ConfigFile = Missing | Unreadable | Decoded(content: Value)

  function Defaults(): (d: Dict)
    ensures "model_parameters" in d && d["model_parameters"].JObj?
  {
    map["model_parameters" := JObj(map["temperature" := JReal(0.7), "max_output_tokens" := JNum(8192)]),
        "max_retries" := JNum(5),
        "initial_delay" := JNum(2),
        "max_delay" := JNum(10),
        "post_call_delay" := JReal(1.5),
        "max_repair_attempts" := JNum(3)]
  }

  /** `_load_config`: a decoded dict overrides the defaults key by key; anything else leaves the defaults. */
  function LoadConfig(f: ConfigFile): (c: Dict)
    ensures Defaults().Keys <= c.Keys
    ensures f.Decoded? && f.content.JObj? ==> forall k :: k in f.content.fields ==> k in c && c[k] == f.content.fields[k]
    ensures f.Decoded? && f.content.JObj? ==> forall k :: k in Defaults() && k !in f.content.fields ==> c[k] == Defaults()[k]
    ensures !(f.Decoded? && f.content.JObj?) ==> c == Defaults()
  {
    if f.Decoded? && f.content.JObj? then Defaults() + f.content.fields else Defaults()
  }

  /** The value at the end of a path of dict keys, or `None` when some step is missing or not a dict. */
  function Walk(v: Value, parts: seq<string>): (r: Option<Value>)
    ensures parts != [] && r.Some? ==> v.JObj? && parts[0] in v.fields
    ensures |parts| == 1 ==> r == if v.JObj? && parts[0] in v.fields then Some(v.fields[parts[0]]) else None
  {
    if parts == [] then Some(v)
    else if v.JObj? && parts[0] in v.fields then Walk(v.fields[parts[0]], parts[1..])
    else None
  }

  /** `get(key, default)`. */
  function GetKey(config: Dict, key: string, default: Value): (r: Value)
    ensures '.' !in key ==> r == if key in config then config[key] else default
    ensures '.' in key && Walk(JObj(config), Split(key, '.')).None? ==> r == default
  {
    if '.' in key then Walk(JObj(config), Split(key, '.')).GetOr(default)
    else GetOr(config, key, default)
  }

  /**
   * `set` along a dotted path: missing intermediate keys become `{}`; an
   * intermediate or final container that is not a dict makes the assignment
   * raise `TypeError` before anything was created.
   */
  function SetPath(m: Dict, parts: seq<string>, value: Value): (r: Result<Dict>)
    requires |parts| >= 1
    ensures r.Ok? ==> r.value.Keys == m.Keys + {parts[0]}
    ensures r.Ok? ==> forall k :: k in m && k != parts[0] ==> r.value[k] == m[k]
    decreases |parts|
  {
    if |parts| == 1 then Ok(m[parts[0] := value])
    else
      var child := if parts[0] in m then m[parts[0]] else JObj(map[]);
      if !child.JObj? then Raise("TypeError: part of the key is not a dict")
      else match SetPath(child.fields, parts[1..], value)
        case Ok(c) => Ok(m[parts[0] := JObj(c)])
        case Raise(e) => Raise(e)
  }

  function SetKey(config: Dict, key: string, value: Value): (r: Result<Dict>)
    ensures '.' !in key ==> r.Ok? && r.value.Keys == config.Keys + {key}
    ensures r.Ok? ==> GetKey(r.value, key, JNull) == value
  {
    if '.' in key then
      var written := SetPath(config, Split(key, '.'), value);
      if written.Ok? then WalkAfterSetPath(config, Split(key, '.'), value); written else written
    else Ok(config[key := value])
  }

  /** Reading a path just written gives the value written. */
  lemma {:induction false} WalkAfterSetPath(m: Dict, parts: seq<string>, value: Value)
    requires |parts| >= 1 && SetPath(m, parts, value).Ok?
    ensures Walk(JObj(SetPath(m, parts, value).value), parts) == Some(value)
    decreases |parts|
  {
    if |parts| > 1 {
      var child := if parts[0] in m then m[parts[0]] else JObj(map[]);
      WalkAfterSetPath(child.fields, parts[1..], value);
    }
  }

  /** The dotted `set` raises exactly when some proper prefix of the path leads to a value that is not a dict. */
  lemma {:induction false} SetPathFailsIff(m: Dict, parts: seq<string>, value: Value)
    requires |parts| >= 1
    ensures SetPath(m, parts, value).Raise? <==>
      exists k :: 1 <= k < |parts| && BlockedAt(m, parts, k)
    decreases |parts|
  {
    if |parts| > 1 {
      var child := if parts[0] in m then m[parts[0]] else JObj(map[]);
      WalkStep(m, parts, 1);
      assert parts[1..][..0] == [];
      if child.JObj? {
        SetPathFailsIff(child.fields, parts[1..], value);
        NothingBlocksFresh(parts[1..]);
        forall k | 2 <= k < |parts|
          ensures BlockedAt(m, parts, k) <==> BlockedAt(child.fields, parts[1..], k - 1)
        {
          WalkStep(m, parts, k);
        }
        if exists j :: 1 <= j < |parts| - 1 && BlockedAt(child.fields, parts[1..], j) {
          var j :| 1 <= j < |parts| - 1 && BlockedAt(child.fields, parts[1..], j);
          assert BlockedAt(m, parts, j + 1);
        }
      } else {
        assert BlockedAt(m, parts, 1);
      }
    }
  }

  /** One step of a walk from the top-level dict. */
  lemma WalkStep(m: Dict, parts: seq<string>, k: nat)
    requires 1 <= k <= |parts|
    ensures Walk(JObj(m), parts[..k]) == if parts[0] in m then Walk(m[parts[0]], parts[1..][..k - 1]) else None
  {
    assert parts[..k][0] == parts[0];
    assert parts[..k][1..] == parts[1..][..k - 1];
  }

  /** The first `k` keys of the path exist but lead to something that is not a dict. */
  predicate BlockedAt(m: Dict, parts: seq<string>, k: nat)
    requires 1 <= k <= |parts|
  {
    var v := Walk(JObj(m), parts[..k]);
    v.Some? && !v.value.JObj?
  }

  lemma NothingBlocksFresh(parts: seq<string>)
    requires |parts| >= 1
    ensures forall k :: 1 <= k < |parts| ==> !BlockedAt(map[], parts, k)
  {
  }

  class ConfigManager {
    var config: Dict
    /** The dict last written by `save_config`. */
    ghost var saved: Option<Dict>

    constructor (file: ConfigFile)
      ensures config == LoadConfig(file) && saved == None
    {
      config := LoadConfig(file);
      saved := None;
    }

    method SaveConfig()
      modifies this
      ensures config == old(config) && saved == Some(config)
    {
      saved := Some(config);
    }

    /** `get`: a dotted key walks nested dicts one part at a time. */
    method Get(key: string, default: Value) returns (v: Value)
      ensures v == GetKey(config, key, default)
    {
      if '.' !in key {
        return GetOr(config, key, default);
      }
      var parts := Split(key, '.');
      var current := JObj(config);
      var i := 0;
      while i < |parts|
        invariant 0 <= i <= |parts|
        invariant Walk(JObj(config), parts) == Walk(current, parts[i..])
      {
        if current.JObj? && parts[i] in current.fields {
          assert parts[i..][1..] == parts[i + 1..];
          current := current.fields[parts[i]];
        } else {
          return default;
        }
        i := i + 1;
      }
      return current;
    }

    /** `set`; `raised` reports the `TypeError` of a path through a non-dict, which leaves the config unchanged. */
    method Set(key: string, value: Value) returns (raised: bool)
      modifies this
      ensures raised == SetKey(old(config), key, value).Raise?
      ensures config == if raised then old(config) else SetKey(old(config), key, value).value
      ensures !raised ==> GetKey(config, key, JNull) == value
      ensures saved == old(saved)
    {
      var r := SetKey(config, key, value);
      if r.Raise? {
        return true;
      }
      if '.' in key {
        WalkAfterSetPath(config, Split(key, '.'), value);
      }
      config := r.value;
      return false;
    }

    /** `update`: a shallow merge in which the argument's keys win. */
    method Update(other: Dict)
      modifies this
      ensures config == old(config) + other
      ensures forall k :: k in other ==> config[k] == other[k]
      ensures forall k :: k in old(config) && k !in other ==> config[k] == old(config)[k]
      ensures saved == old(saved)
    {
      config := config + other;
    }

    function GetModelParams(): (p: Value)
      reads this
      ensures "model_parameters" !in config ==> p == JObj(map[])
      ensures "model_parameters" in config ==> p == config["model_parameters"]
    {
      GetOr(config, "model_parameters", JObj(map[]))
    }
  }
}
