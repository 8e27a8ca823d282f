/**
 * The JSON analyzer's own logic: schema validation over parsed values,
 * the unclosed-quote repair and the missing-comma repair.
 */
module JsonAnalysis {
  import opened JsonValue
  import opened Text
  import opened Wrappers

  // ---------------------------------------------------------------------
  // validate_json

  predicate HasType(schema: Dict, t: string) {
    Get(schema, "type") == JStr(t)
  }

  /**
   * The order in which a dict's keys are iterated (its insertion order).
   * `Dict` does not record it, so the validator takes it as a parameter.
   */
  type KeyOrder = Dict -> seq<string>

  /** `order` lists exactly the keys of every dict. */
  ghost predicate Enumerates(order: KeyOrder) {
    forall m: Dict, k: string :: k in order(m) <==> k in m
  }

  /** The message of the `AttributeError` raised when `attribute` is looked up on a non-dict. */
  function NoAttribute(v: Value, attribute: string): string {
    "AttributeError: '" + PyType(v) + "' object has no attribute '" + attribute + "'"
  }

  /**
   * `for field in schema["required"]: if field not in json_obj: return False`.
   * A list is walked in order: a list or dict item is unhashable and raises,
   * any other item that is not a present key gives False. A string is walked
   * by its characters and a dict by its keys; anything else is not iterable.
   */
  function Required(fields: Dict, required: Value): (r: Result<bool>)
  {
    match required
    case JArr(items) => RequiredItems(fields, items)
    case JStr(t) => Ok(forall i :: 0 <= i < |t| ==> [t[i]] in fields)
    case JObj(m) => Ok(m.Keys <= fields.Keys)
    case _ => Raise("TypeError: '" + PyType(required) + "' object is not iterable")
  }

  function RequiredItems(fields: Dict, items: seq<Value>): (r: Result<bool>)
    ensures r == Ok(true) <==> forall i :: 0 <= i < |items| ==> items[i].JStr? && items[i].s in fields
    decreases |items|
  {
    if items == [] then Ok(true)
    else if items[0].JArr? || items[0].JObj? then Raise("TypeError: " + UnhashableMessage(items[0]))
    else if items[0].JStr? && items[0].s in fields then RequiredItems(fields, items[1..])
    else Ok(false)
  }

  /**
   * `validate_json`: the type checks, then the required fields, then the
   * present properties in the order of the `properties` dict, then the items of
   * an array. Each step runs only when the previous ones passed; a False or a
   * raise from a nested schema ends the walk. Only `object` and `array` are
   * checked, so a schema of any other type accepts every value. Looking a key
   * up on a schema that is not a dict raises `AttributeError`.
   */
  function Validate(v: Value, schema: Value, order: KeyOrder): (r: Result<bool>)
    ensures !schema.JObj? ==> r == Raise(NoAttribute(schema, "get"))
    ensures schema.JObj? && r != Ok(true) ==> HasType(schema.fields, "object") || HasType(schema.fields, "array")
    ensures schema.JObj? && HasType(schema.fields, "object") && !v.JObj? ==> r == Ok(false)
    decreases schema, 1, 0
  {
    if !schema.JObj? then Raise(NoAttribute(schema, "get"))
    else
      var s := schema.fields;
      if HasType(s, "object") && !v.JObj? then Ok(false)
      else if HasType(s, "array") && !v.JArr? then Ok(false)
      else
        var required := if HasType(s, "object") && "required" in s then Required(v.fields, s["required"]) else Ok(true);
        if required != Ok(true) then required
        else
          var properties :=
            if !(HasType(s, "object") && "properties" in s) then Ok(true)
            else if !s["properties"].JObj? then Raise(NoAttribute(s["properties"], "items"))
            else Properties(v.fields, schema, order(s["properties"].fields), order);
          if properties != Ok(true) then properties
          else if HasType(s, "array") && "items" in s then Items(v.items, schema, order)
          else Ok(true)
  }

  /** The loop over `schema["properties"].items()`, from the key `keys[0]` on. */
  function Properties(fields: Dict, schema: Value, keys: seq<string>, order: KeyOrder): (r: Result<bool>)
    requires schema.JObj? && "properties" in schema.fields && schema.fields["properties"].JObj?
    decreases schema, 0, |keys|
  {
    var ps := schema.fields["properties"].fields;
    if keys == [] then Ok(true)
    else if keys[0] in ps && keys[0] in fields then
      var head := Validate(fields[keys[0]], ps[keys[0]], order);
      if head != Ok(true) then head else Properties(fields, schema, keys[1..], order)
    else Properties(fields, schema, keys[1..], order)
  }

  /** The loop over the array's items, each validated against `schema["items"]`. */
  function Items(values: seq<Value>, schema: Value, order: KeyOrder): (r: Result<bool>)
    requires schema.JObj? && "items" in schema.fields
    decreases schema, 0, |values|
  {
    if values == [] then Ok(true)
    else
      var head := Validate(values[0], schema.fields["items"], order);
      if head != Ok(true) then head else Items(values[1..], schema, order)
  }

  /** The property loop passes iff every listed key that names a present property validates. */
  lemma {:induction false} PropertiesAll(fields: Dict, schema: Value, keys: seq<string>, order: KeyOrder)
    requires schema.JObj? && "properties" in schema.fields && schema.fields["properties"].JObj?
    ensures var ps := schema.fields["properties"].fields;
      Properties(fields, schema, keys, order) == Ok(true) <==>
      forall f :: f in keys && f in ps && f in fields ==> Validate(fields[f], ps[f], order) == Ok(true)
    decreases |keys|
  {
    if keys != [] {
      PropertiesAll(fields, schema, keys[1..], order);
      assert forall f :: f in keys <==> f == keys[0] || f in keys[1..];
    }
  }

  /** The item loop passes iff every item validates. */
  lemma {:induction false} ItemsAll(values: seq<Value>, schema: Value, order: KeyOrder)
    requires schema.JObj? && "items" in schema.fields
    ensures Items(values, schema, order) == Ok(true) <==>
      forall i :: 0 <= i < |values| ==> Validate(values[i], schema.fields["items"], order) == Ok(true)
    decreases |values|
  {
    if values != [] {
      ItemsAll(values[1..], schema, order);
      assert forall i :: 1 <= i < |values| ==> values[i] == values[1..][i - 1];
    }
  }

  /** The item loop over `a + b` is the loop over `a`, then, if that passed, the loop over `b`. */
  lemma {:induction false} ItemsAppend(a: seq<Value>, b: seq<Value>, schema: Value, order: KeyOrder)
    requires schema.JObj? && "items" in schema.fields
    ensures Items(a + b, schema, order) ==
      if Items(a, schema, order) == Ok(true) then Items(b, schema, order) else Items(a, schema, order)
    decreases |a|
  {
    if a != [] {
      assert (a + b)[0] == a[0] && (a + b)[1..] == a[1..] + b;
      ItemsAppend(a[1..], b, schema, order);
    } else {
      assert a + b == b;
    }
  }

  /**
   * The type checks reject a value of the wrong kind; a valid object has every
   * required field (each name of a list, each character of a string); a schema
   * that is not a dict raises.
   */
  lemma ValidateTypeAndRequired(v: Value, schema: Value, order: KeyOrder)
    ensures !schema.JObj? ==> Validate(v, schema, order) == Raise(NoAttribute(schema, "get"))
    ensures schema.JObj? && HasType(schema.fields, "object") && !v.JObj? ==> Validate(v, schema, order) == Ok(false)
    ensures schema.JObj? && HasType(schema.fields, "array") && !v.JArr? ==> Validate(v, schema, order) == Ok(false)
    ensures Validate(v, schema, order) == Ok(true) && HasType(schema.fields, "object") && "required" in schema.fields ==>
      var required := schema.fields["required"];
      (required.JArr? ==> forall f :: JStr(f) in required.items ==> f in v.fields) &&
      (required.JStr? ==> forall i :: 0 <= i < |required.s| ==> [required.s[i]] in v.fields) &&
      (required.JObj? ==> required.fields.Keys <= v.fields.Keys) &&
      (required.JArr? || required.JStr? || required.JObj?)
  {
    if Validate(v, schema, order) == Ok(true) && HasType(schema.fields, "object") && "required" in schema.fields {
      var required := schema.fields["required"];
      if required.JArr? {
        assert Required(v.fields, required) == Ok(true);
        assert forall f :: JStr(f) in required.items ==> exists i :: 0 <= i < |required.items| && required.items[i] == JStr(f);
      }
    }
  }

  /** `required` as a list: the first unhashable name raises, the first other missing name gives False. */
  lemma RequiredListOutcome(v: Value, schema: Value, order: KeyOrder, k: nat)
    requires schema.JObj? && HasType(schema.fields, "object") && v.JObj?
    requires "required" in schema.fields && schema.fields["required"].JArr?
    requires k < |schema.fields["required"].items|
    requires forall i :: 0 <= i < k ==> schema.fields["required"].items[i] in JStrs(v.fields)
    ensures var item := schema.fields["required"].items[k];
      (item.JArr? || item.JObj? ==> Validate(v, schema, order) == Raise("TypeError: " + UnhashableMessage(item))) &&
      (!item.JArr? && !item.JObj? && item !in JStrs(v.fields) ==> Validate(v, schema, order) == Ok(false))
  {
    RequiredItemsOutcome(v.fields, schema.fields["required"].items, k);
  }

  /** The keys of `fields` as JSON strings. */
  function JStrs(fields: Dict): set<Value> {
    set f | f in fields :: JStr(f)
  }

  lemma {:induction false} RequiredItemsOutcome(fields: Dict, items: seq<Value>, k: nat)
    requires k < |items| && forall i :: 0 <= i < k ==> items[i] in JStrs(fields)
    ensures items[k].JArr? || items[k].JObj? ==> RequiredItems(fields, items) == Raise("TypeError: " + UnhashableMessage(items[k]))
    ensures !items[k].JArr? && !items[k].JObj? && items[k] !in JStrs(fields) ==> RequiredItems(fields, items) == Ok(false)
    decreases k
  {
    if k > 0 {
      assert items[0] in JStrs(fields);
      RequiredItemsOutcome(fields, items[1..], k - 1);
    }
  }

  /** A schema whose type is neither `object` nor `array` (or that has none) accepts everything. */
  lemma UntypedAcceptsAll(v: Value, schema: Value, order: KeyOrder)
    requires schema.JObj? && !HasType(schema.fields, "object") && !HasType(schema.fields, "array")
    ensures Validate(v, schema, order) == Ok(true)
  {
  }

  /** A present property of a valid object is valid against its own schema. */
  lemma ValidateProperty(v: Value, schema: Value, f: string, order: KeyOrder)
    requires Enumerates(order) && Validate(v, schema, order) == Ok(true)
    requires schema.JObj? && HasType(schema.fields, "object") && "properties" in schema.fields
    requires schema.fields["properties"].JObj? && f in schema.fields["properties"].fields && f in v.fields
    ensures Validate(v.fields[f], schema.fields["properties"].fields[f], order) == Ok(true)
  {
    var ps := schema.fields["properties"].fields;
    PropertiesAll(v.fields, schema, order(ps), order);
    assert f in order(ps);
  }

  /**
   * Extra fields are always allowed: adding a field the schema does not describe
   * keeps a valid object valid (`additionalProperties` is never read).
   */
  lemma ExtraFieldAllowed(v: Value, schema: Value, g: string, x: Value, order: KeyOrder)
    requires Validate(v, schema, order) == Ok(true) && v.JObj?
    requires schema.JObj? && HasType(schema.fields, "object")
    requires "properties" in schema.fields && schema.fields["properties"].JObj? ==>
      g !in schema.fields["properties"].fields
    ensures Validate(JObj(v.fields[g := x]), schema, order) == Ok(true)
  {
    var w := v.fields[g := x];
    var s := schema.fields;
    if "required" in s {
      var required := s["required"];
      if required.JArr? {
        assert Required(v.fields, required) == Ok(true);
        assert Required(w, required) == Ok(true);
      }
    }
    if "properties" in s && s["properties"].JObj? {
      var ps := s["properties"].fields;
      PropertiesAll(v.fields, schema, order(ps), order);
      PropertiesAll(w, schema, order(ps), order);
      forall f | f in order(ps) && f in ps && f in w
        ensures Validate(w[f], ps[f], order) == Ok(true)
      {
        assert f != g && w[f] == v.fields[f];
      }
    }
  }

  /** An array's items are checked one after another: the walk over `a + b` is the walk over `a`, then over `b`. */
  lemma ValidateArrayAppend(a: seq<Value>, b: seq<Value>, schema: Value, order: KeyOrder)
    requires schema.JObj? && HasType(schema.fields, "array") && "items" in schema.fields
    ensures Validate(JArr(a + b), schema, order) ==
      if Validate(JArr(a), schema, order) == Ok(true) then Validate(JArr(b), schema, order)
      else Validate(JArr(a), schema, order)
    ensures Validate(JArr(a + b), schema, order) == Ok(true) <==>
      forall i :: 0 <= i < |a + b| ==> Validate((a + b)[i], schema.fields["items"], order) == Ok(true)
  {
    ItemsAppend(a, b, schema, order);
    ItemsAll(a + b, schema, order);
  }

  /**
   * The schema shapes that cannot make `validate_json` raise: a dict, with
   * `required` a string, a dict or a list without list or dict items, and
   * `properties` a dict of such schemas, wherever the schema's type makes the
   * validator read them.
   */
  predicate WellFormedSchema(schema: Value)
    decreases schema
  {
    schema.JObj? &&
    var s := schema.fields;
    (HasType(s, "object") && "required" in s ==>
      var required := s["required"];
      required.JStr? || required.JObj? ||
      (required.JArr? && forall i :: 0 <= i < |required.items| ==> !required.items[i].JArr? && !required.items[i].JObj?)) &&
    (HasType(s, "object") && "properties" in s ==>
      s["properties"].JObj? && forall f :: f in s["properties"].fields ==> WellFormedSchema(s["properties"].fields[f])) &&
    (HasType(s, "array") && "items" in s ==> WellFormedSchema(s["items"]))
  }

  /** A well-formed schema never makes the validator raise, whatever the value. */
  lemma {:induction false} WellFormedNeverRaises(v: Value, schema: Value, order: KeyOrder)
    requires WellFormedSchema(schema)
    ensures Validate(v, schema, order).Ok?
    decreases schema, 1, 0
  {
    var s := schema.fields;
    if HasType(s, "object") && v.JObj? && "required" in s && s["required"].JArr? {
      RequiredItemsNeverRaise(v.fields, s["required"].items);
    }
    if HasType(s, "object") && v.JObj? && "properties" in s {
      PropertiesNeverRaise(v.fields, schema, order(s["properties"].fields), order);
    }
    if HasType(s, "array") && v.JArr? && "items" in s {
      ItemsNeverRaise(v.items, schema, order);
    }
  }

  lemma {:induction false} RequiredItemsNeverRaise(fields: Dict, items: seq<Value>)
    requires forall i :: 0 <= i < |items| ==> !items[i].JArr? && !items[i].JObj?
    ensures RequiredItems(fields, items).Ok?
    decreases |items|
  {
    if items != [] {
      RequiredItemsNeverRaise(fields, items[1..]);
    }
  }

  lemma {:induction false} PropertiesNeverRaise(fields: Dict, schema: Value, keys: seq<string>, order: KeyOrder)
    requires WellFormedSchema(schema) && HasType(schema.fields, "object") && "properties" in schema.fields
    ensures schema.fields["properties"].JObj? && Properties(fields, schema, keys, order).Ok?
    decreases schema, 0, |keys|
  {
    var ps := schema.fields["properties"].fields;
    if keys != [] {
      if keys[0] in ps && keys[0] in fields {
        WellFormedNeverRaises(fields[keys[0]], ps[keys[0]], order);
      }
      PropertiesNeverRaise(fields, schema, keys[1..], order);
    }
  }

  lemma {:induction false} ItemsNeverRaise(values: seq<Value>, schema: Value, order: KeyOrder)
    requires WellFormedSchema(schema) && HasType(schema.fields, "array") && "items" in schema.fields
    ensures Items(values, schema, order).Ok?
    decreases schema, 0, |values|
  {
    if values != [] {
      WellFormedNeverRaises(values[0], schema.fields["items"], order);
      ItemsNeverRaise(values[1..], schema, order);
    }
  }

  // ---------------------------------------------------------------------
  // _fix_unclosed_quotes

  /** The double quotes that are not escaped, counted from the scanner state `escaped`. */
  function QuoteCount(s: string, escaped: bool): nat
    decreases |s|
  {
    if s == [] then 0
    else if s[0] == '\\' && !escaped then QuoteCount(s[1..], true)
    else (if s[0] == '"' && !escaped then 1 else 0) + QuoteCount(s[1..], false)
  }

  /** Whether the scan of `s` ends with a backslash still waiting to escape the next character. */
  function EscapePending(s: string, escaped: bool): bool
    decreases |s|
  {
    if s == [] then escaped
    else if s[0] == '\\' && !escaped then EscapePending(s[1..], true)
    else EscapePending(s[1..], false)
  }

  lemma {:induction false} QuoteCountAppend(s: string, t: string, escaped: bool)
    ensures QuoteCount(s + t, escaped) == QuoteCount(s, escaped) + QuoteCount(t, EscapePending(s, escaped))
    ensures EscapePending(s + t, escaped) == EscapePending(t, EscapePending(s, escaped))
    decreases |s|
  {
    if s == [] {
      assert s + t == t;
    } else {
      assert (s + t)[1..] == s[1..] + t;
      if s[0] == '\\' && !escaped {
        QuoteCountAppend(s[1..], t, true);
      } else {
        QuoteCountAppend(s[1..], t, false);
      }
    }
  }

  /** `_fix_unclosed_quotes` as written: one `"` is appended when the count of unescaped quotes is odd. */
  method FixUnclosedQuotes(s: string) returns (r: string)
    ensures QuoteCount(s, false) % 2 == 1 ==> r == s + "\""
    ensures QuoteCount(s, false) % 2 == 0 ==> r == s
  {
    var positions: seq<nat> := [];
    var inString := false;
    var escapeNext := false;
    var i := 0;
    while i < |s|
      invariant 0 <= i <= |s|
      invariant |positions| + QuoteCount(s[i..], escapeNext) == QuoteCount(s, false)
      invariant inString <==> |positions| % 2 == 1
      invariant forall k :: 0 <= k < |positions| ==> positions[k] < i && s[positions[k]] == '"'
    {
      assert s[i..][1..] == s[i + 1..];
      var c := s[i];
      if c == '\\' && !escapeNext {
        escapeNext := true;
      } else {
        if c == '"' && !escapeNext {
          inString := !inString;
          positions := positions + [i];
        }
        escapeNext := false;
      }
      i := i + 1;
    }
    assert s[..] == s[0..];
    if |positions| % 2 == 1 {
      r := s + "\"";
    } else {
      r := s;
    }
  }

  /**
   * The repair leaves an even count of unescaped quotes except when the input ends with a
   * dangling backslash, which escapes the appended quote.
   */
  lemma FixUnclosedQuotesBalances(s: string)
    ensures QuoteCount(s, false) % 2 == 1 && !EscapePending(s, false) ==> QuoteCount(s + "\"", false) % 2 == 0
    ensures QuoteCount(s, false) % 2 == 1 && EscapePending(s, false) ==> QuoteCount(s + "\"", false) % 2 == 1
  {
    QuoteCountAppend(s, "\"", false);
    assert "\""[1..] == [];
  }

  /** The input `"\` has one unescaped quote; appending `"` leaves it still unbalanced. */
  lemma DanglingBackslashStaysOpen()
    ensures QuoteCount("\"\\", false) == 1
    ensures QuoteCount("\"\\" + "\"", false) == 1
  {
    assert "\"\\"[1..] == "\\";
    assert "\\"[1..] == [];
    var t := "\"\\" + "\"";
    assert t == ['"', '\\', '"'];
    assert t[1..] == "\\\"";
    assert t[1..][1..] == "\"";
    assert "\""[1..] == [];
    assert QuoteCount("\"", true) == 0;
    assert QuoteCount(t[1..], false) == QuoteCount(t[1..][1..], true);
    assert QuoteCount(t, false) == 1 + QuoteCount(t[1..], false);
  }

  /** The evident intent: close the string, first completing a dangling escape so the closing quote counts. */
  function CloseQuotes(s: string): (r: string)
    ensures QuoteCount(r, false) % 2 == 0
    ensures s <= r && |r| <= |s| + 2
  {
    QuoteCountAppend(s, "\"", false);
    QuoteCountAppend(s, "\\\"", false);
    assert "\""[1..] == [];
    assert "\\\""[1..] == "\"";
    if QuoteCount(s, false) % 2 == 0 then s
    else if EscapePending(s, false) then s + "\\\""
    else s + "\""
  }

  // ---------------------------------------------------------------------
  // _fix_missing_commas: re.sub(r"([\]\}])\s*([\{\[])", r"\1,\2", s)

  predicate IsCloser(c: char) { c == ']' || c == '}' }
  predicate IsOpener(c: char) { c == '{' || c == '[' }

  /** The first index from `j` on that does not hold whitespace. */
  function SkipSpaces(s: string, j: nat): (k: nat)
    requires j <= |s|
    ensures j <= k <= |s|
    ensures forall m :: j <= m < k ==> IsSpace(s[m])
    ensures k < |s| ==> !IsSpace(s[k])
    decreases |s| - j
  {
    if j < |s| && IsSpace(s[j]) then SkipSpaces(s, j + 1) else j
  }

  lemma {:induction false} SkipSpacesShift(a: string, b: string, j: nat)
    requires j <= |b|
    ensures SkipSpaces(a + b, |a| + j) == |a| + SkipSpaces(b, j)
    decreases |b| - j
  {
    if j < |b| {
      assert (a + b)[|a| + j] == b[j];
      SkipSpacesShift(a, b, j + 1);
    }
  }

  /** The first non-blank character of `t`, if any. */
  function FirstSolid(t: string): Option<char> {
    if SkipSpaces(t, 0) < |t| then Some(t[SkipSpaces(t, 0)]) else None
  }

  /** The pattern matches at `i`: a closing bracket, optional whitespace, an opening bracket. */
  predicate MatchAt(s: string, i: nat)
    requires i < |s|
  {
    IsCloser(s[i]) && SkipSpaces(s, i + 1) < |s| && IsOpener(s[SkipSpaces(s, i + 1)])
  }

  predicate NoMatch(s: string) {
    forall i :: 0 <= i < |s| ==> !MatchAt(s, i)
  }

  /** The substitution, scanning left to right over non-overlapping matches. */
  function FixMissingCommas(s: string): (r: string)
    ensures |r| <= |s| + |s| / 2
    ensures s != [] ==> r != [] && r[0] == s[0]
    decreases |s|
  {
    if s == [] then []
    else if MatchAt(s, 0) then
      var k := SkipSpaces(s, 1);
      [s[0], ',', s[k]] + FixMissingCommas(s[k + 1..])
    else [s[0]] + FixMissingCommas(s[1..])
  }

  /** Matching at a position depends only on the text from there on. */
  lemma MatchShift(a: string, b: string, i: nat)
    requires i < |b|
    ensures MatchAt(a + b, |a| + i) <==> MatchAt(b, i)
  {
    SkipSpacesShift(a, b, i + 1);
    assert (a + b)[|a| + i] == b[i];
    if SkipSpaces(b, i + 1) < |b| {
      assert (a + b)[|a| + SkipSpaces(b, i + 1)] == b[SkipSpaces(b, i + 1)];
    }
  }

  /** After the first character, the next solid character is the first solid character of the tail. */
  lemma SolidAfterFirst(s: string)
    requires s != []
    ensures FirstSolid(s[1..]) == (if SkipSpaces(s, 1) < |s| then Some(s[SkipSpaces(s, 1)]) else None)
  {
    assert [s[0]] + s[1..] == s;
    SkipSpacesShift([s[0]], s[1..], 0);
  }

  /** The first non-blank character survives the substitution. */
  lemma {:induction false} FirstSolidKept(t: string)
    ensures FirstSolid(FixMissingCommas(t)) == FirstSolid(t)
    decreases |t|
  {
    if t != [] && IsSpace(t[0]) {
      var f := FixMissingCommas(t);
      assert !IsCloser(t[0]);
      assert f == [t[0]] + FixMissingCommas(t[1..]);
      FirstSolidKept(t[1..]);
      SolidAfterFirst(t);
      SolidAfterFirst(f);
      assert f[1..] == FixMissingCommas(t[1..]);
    }
  }

  /** Text without a missing comma is left exactly as it is. */
  lemma {:induction false} NoMatchUnchanged(s: string)
    requires NoMatch(s)
    ensures FixMissingCommas(s) == s
    decreases |s|
  {
    if s != [] {
      assert !MatchAt(s, 0);
      assert [s[0]] + s[1..] == s;
      forall i | 0 <= i < |s[1..]| ensures !MatchAt(s[1..], i) {
        MatchShift([s[0]], s[1..], i);
      }
      NoMatchUnchanged(s[1..]);
    }
  }

  /** The substitution changes the text whenever the pattern occurs in it. */
  lemma {:induction false} UnchangedNoMatch(s: string)
    requires FixMissingCommas(s) == s
    ensures NoMatch(s)
    decreases |s|
  {
    if s != [] {
      if MatchAt(s, 0) {
        MatchChanges(s);
      }
      var rest := FixMissingCommas(s[1..]);
      assert FixMissingCommas(s) == [s[0]] + rest;
      assert rest == s[1..];
      UnchangedNoMatch(s[1..]);
      assert [s[0]] + s[1..] == s;
      forall i | 0 <= i < |s| ensures !MatchAt(s, i) {
        if i > 0 {
          MatchShift([s[0]], s[1..], i - 1);
        }
      }
    }
  }

  /** A match at the front puts a comma where the text had whitespace or the opening bracket. */
  lemma MatchChanges(s: string)
    requires s != [] && MatchAt(s, 0)
    ensures FixMissingCommas(s) != s
  {
    var k := SkipSpaces(s, 1);
    var f := FixMissingCommas(s);
    assert f == [s[0], ',', s[k]] + FixMissingCommas(s[k + 1..]);
    assert f[1] == ',';
    assert s[1] != ',' by {
      if k == 1 { assert IsOpener(s[1]); } else { assert IsSpace(s[1]); }
    }
  }

  /** No missing comma is left after the substitution. */
  lemma {:induction false} FixLeavesNoMatch(s: string)
    ensures NoMatch(FixMissingCommas(s))
    decreases |s|, 1
  {
    if s != [] {
      var f := FixMissingCommas(s);
      if MatchAt(s, 0) {
        var k := SkipSpaces(s, 1);
        var front := [s[0], ',', s[k]];
        var rest := FixMissingCommas(s[k + 1..]);
        assert f == front + rest;
        FixLeavesNoMatch(s[k + 1..]);
        forall i | 0 <= i < |f| ensures !MatchAt(f, i) {
          if i >= 3 {
            MatchShift(front, rest, i - 3);
          } else if i == 0 {
            assert f[1] == ',' && !IsSpace(f[1]);
            assert SkipSpaces(f, 1) == 1;
          }
        }
      } else {
        FixKeepsFrontFree(s);
      }
    }
  }

  lemma {:induction false} FixKeepsFrontFree(s: string)
    requires s != [] && !MatchAt(s, 0)
    ensures NoMatch(FixMissingCommas(s))
    decreases |s|, 0
  {
    var f := FixMissingCommas(s);
    var rest := FixMissingCommas(s[1..]);
    assert f == [s[0]] + rest;
    FixLeavesNoMatch(s[1..]);
    forall i | 0 <= i < |f| ensures !MatchAt(f, i) {
      if i >= 1 {
        MatchShift([s[0]], rest, i - 1);
      } else if IsCloser(s[0]) {
        FirstSolidKept(s[1..]);
        assert f[1..] == rest;
        SolidAfterFirst(f);
        SolidAfterFirst(s);
      }
    }
  }

  /** Hence the substitution is idempotent, and it is the identity exactly on text with no missing comma. */
  lemma FixMissingCommasIdempotent(s: string)
    ensures FixMissingCommas(FixMissingCommas(s)) == FixMissingCommas(s)
    ensures FixMissingCommas(s) == s <==> NoMatch(s)
  {
    FixLeavesNoMatch(s);
    NoMatchUnchanged(FixMissingCommas(s));
    if FixMissingCommas(s) == s { UnchangedNoMatch(s); }
    if NoMatch(s) { NoMatchUnchanged(s); }
  }
}
