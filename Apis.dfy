/**
 * Helpers of the generated API client: the client error type's display and
 * source, the content-type classifier, and `parse_deep_object`, which
 * flattens a JSON object into `prefix[key][sub]...` query pairs.
 */
module Apis {
  import opened Wrappers
  import opened Ints
  import opened Text

  // ---------------------------------------------------------------------------
  // JSON values
  // ---------------------------------------------------------------------------

  /**
   * `serde_json::Value`. An object is its entries in iteration order; numbers
   * are integers.
   */
  datatype Value =
    | Null
    | Bool(b: bool)
    | Number(n: int)
    | String(s: string)
    | Array(items: seq<Value>)
    | Object(entries: seq<(string, Value)>)

  /** The keys of an object, in iteration order. */
  function Keys(entries: seq<(string, Value)>): (ks: seq<string>)
    ensures |ks| == |entries|
    ensures forall i :: 0 <= i < |entries| ==> ks[i] == entries[i].0
  {
    if entries == [] then [] else [entries[0].0] + Keys(entries[1..])
  }

  /** The value stored under `key` in an object, if any (the first entry with that key). */
  function Get(entries: seq<(string, Value)>, key: string): (r: Option<Value>)
    ensures r.Some? <==> key in Keys(entries)
    ensures r.Some? ==> exists i :: 0 <= i < |entries| && entries[i] == (key, r.value) &&
                                    forall j :: 0 <= j < i ==> entries[j].0 != key
  {
    if entries == [] then None
    else if entries[0].0 == key then Some(entries[0].1)
    else
      assert Keys(entries) == [entries[0].0] + Keys(entries[1..]);
      var r := Get(entries[1..], key);
      assert r.Some? ==> exists i :: 0 <= i < |entries| && entries[i] == (key, r.value) &&
                                     forall j :: 0 <= j < i ==> entries[j].0 != key by {
        if r.Some? {
          var i :| 0 <= i < |entries[1..]| && entries[1..][i] == (key, r.value) &&
                   forall j :: 0 <= j < i ==> entries[1..][j].0 != key;
          assert entries[i + 1] == (key, r.value);
          forall j | 0 <= j < i + 1 ensures entries[j].0 != key {
            if j > 0 {
              assert entries[j] == entries[1..][j - 1];
            }
          }
        }
      }
      r
  }

  /** `Value::to_string` of a value that is neither a string, an array nor an object. */
  function ScalarText(v: Value): string
    requires !v.String? && !v.Array? && !v.Object?
  {
    match v
    case Null => "null"
    case Bool(b) => if b then "true" else "false"
    case Number(n) => IntToString(n)
  }

  // ---------------------------------------------------------------------------
  // parse_deep_object
  // ---------------------------------------------------------------------------

  /** `format!("{}[{}]", prefix, key)`. */
  function Bracket(prefix: string, key: string): string {
    prefix + "[" + key + "]"
  }

  /**
   * The values `parse_deep_object` accepts without panicking: an object whose
   * nested objects are accepted and whose arrays hold only accepted objects.
   */
  predicate Flattenable(v: Value)
    decreases v, 1
  {
    v.Object? && forall i :: 0 <= i < |v.entries| ==> EntryFlattenable(v.entries[i].1)
  }

  /** A value found under a key of an accepted object. */
  predicate EntryFlattenable(c: Value)
    decreases c, 2
  {
    match c
    case Object(_) => Flattenable(c)
    case Array(items) => forall j :: 0 <= j < |items| ==> Flattenable(items[j])
    case _ => true
  }

  /** The pairs `parse_deep_object(prefix, v)` returns: the specification of the method below. */
  function Pairs(prefix: string, v: Value): seq<(string, string)>
    requires Flattenable(v)
    decreases v, 3
  {
    EntriesPairs(prefix, v, |v.entries|)
  }

  /** The pairs of the first `n` entries of object `v`. */
  function EntriesPairs(prefix: string, v: Value, n: nat): seq<(string, string)>
    requires Flattenable(v) && n <= |v.entries|
    decreases v, 2, n
  {
    if n == 0 then []
    else EntriesPairs(prefix, v, n - 1) + EntryPairs(prefix, v.entries[n - 1].0, v.entries[n - 1].1)
  }

  /** The pairs one entry `key: c` contributes. */
  function EntryPairs(prefix: string, key: string, c: Value): seq<(string, string)>
    requires EntryFlattenable(c)
    decreases c, 4
  {
    match c
    case Object(_) => Pairs(Bracket(prefix, key), c)
    case Array(items) => ItemsPairs(Bracket(prefix, key), c, |items|)
    case String(s) => [(Bracket(prefix, key), s)]
    case _ => [(Bracket(prefix, key), ScalarText(c))]
  }

  /** The pairs of the first `n` elements of array `c`, element `i` under `prefix[i]`. */
  function ItemsPairs(prefix: string, c: Value, n: nat): seq<(string, string)>
    requires c.Array? && EntryFlattenable(c) && n <= |c.items|
    decreases c, 1, n
  {
    if n == 0 then []
    else ItemsPairs(prefix, c, n - 1) + Pairs(Bracket(prefix, NatToString(n - 1)), c.items[n - 1])
  }

  /** A bracketed key determines the key inside the brackets. */
  lemma BracketInjective(prefix: string, a: string, b: string)
    requires Bracket(prefix, a) == Bracket(prefix, b)
    ensures a == b
  {
    var u := Bracket(prefix, a);
    assert u == (prefix + "[") + a + "]" && u == (prefix + "[") + b + "]";
    assert |a| == |b|;
    assert u[|prefix| + 1..|prefix| + 1 + |a|] == a;
    assert u[|prefix| + 1..|prefix| + 1 + |b|] == b;
  }

  /** Distinct array indices give distinct element prefixes `prefix[i]`. */
  lemma ElementPrefixesDistinct(prefix: string, i: nat, j: nat)
    requires i != j
    ensures Bracket(prefix, NatToString(i)) != Bracket(prefix, NatToString(j))
  {
    if Bracket(prefix, NatToString(i)) == Bracket(prefix, NatToString(j)) {
      BracketInjective(prefix, NatToString(i), NatToString(j));
      NatToStringInjective(i, j);
    }
  }

  /** `parse_deep_object`: flattens an object into query pairs, recursing into objects and arrays. */
  method ParseDeepObject(prefix: string, value: Value) returns (params: seq<(string, string)>)
    requires Flattenable(value)
    ensures params == Pairs(prefix, value)
    decreases value
  {
    var entries := value.entries;
    params := [];
    for k := 0 to |entries|
      invariant params == EntriesPairs(prefix, value, k)
    {
      var (key, child) := entries[k];
      match child {
        case Object(_) =>
          var sub := ParseDeepObject(Bracket(prefix, key), child);
          params := params + sub;
        case Array(elements) =>
          ghost var before := params;
          for i := 0 to |elements|
            invariant params == before + ItemsPairs(Bracket(prefix, key), child, i)
          {
            var sub := ParseDeepObject(Bracket(Bracket(prefix, key), NatToString(i)), elements[i]);
            params := params + sub;
          }
        case String(s) =>
          params := params + [(Bracket(prefix, key), s)];
        case _ =>
          params := params + [(Bracket(prefix, key), ScalarText(child))];
      }
    }
  }

  // ---------------------------------------------------------------------------
  // What parse_deep_object returns
  // ---------------------------------------------------------------------------

  /** The number of scalar leaves (strings, numbers, booleans, nulls) of an accepted object. */
  function Leaves(v: Value): nat
    requires Flattenable(v)
    decreases v, 3
  {
    EntriesLeaves(v, |v.entries|)
  }

  function EntriesLeaves(v: Value, n: nat): nat
    requires Flattenable(v) && n <= |v.entries|
    decreases v, 2, n
  {
    if n == 0 then 0 else EntriesLeaves(v, n - 1) + EntryLeaves(v.entries[n - 1].1)
  }

  function EntryLeaves(c: Value): nat
    requires EntryFlattenable(c)
    decreases c, 4
  {
    match c
    case Object(_) => Leaves(c)
    case Array(items) => ItemsLeaves(c, |items|)
    case _ => 1
  }

  function ItemsLeaves(c: Value, n: nat): nat
    requires c.Array? && EntryFlattenable(c) && n <= |c.items|
    decreases c, 1, n
  {
    if n == 0 then 0 else ItemsLeaves(c, n - 1) + Leaves(c.items[n - 1])
  }

  /** One pair per scalar leaf: empty objects and arrays contribute nothing. */
  lemma {:induction false} PairsCount(prefix: string, v: Value)
    requires Flattenable(v)
    ensures |Pairs(prefix, v)| == Leaves(v)
    decreases v, 3
  {
    EntriesCount(prefix, v, |v.entries|);
  }

  lemma {:induction false} EntriesCount(prefix: string, v: Value, n: nat)
    requires Flattenable(v) && n <= |v.entries|
    ensures |EntriesPairs(prefix, v, n)| == EntriesLeaves(v, n)
    decreases v, 2, n
  {
    if n > 0 {
      EntriesCount(prefix, v, n - 1);
      EntryCount(prefix, v.entries[n - 1].0, v.entries[n - 1].1);
    }
  }

  lemma {:induction false} EntryCount(prefix: string, key: string, c: Value)
    requires EntryFlattenable(c)
    ensures |EntryPairs(prefix, key, c)| == EntryLeaves(c)
    decreases c, 4
  {
    match c {
      case Object(_) => PairsCount(Bracket(prefix, key), c);
      case Array(items) => ItemsCount(Bracket(prefix, key), c, |items|);
      case _ =>
    }
  }

  lemma {:induction false} ItemsCount(prefix: string, c: Value, n: nat)
    requires c.Array? && EntryFlattenable(c) && n <= |c.items|
    ensures |ItemsPairs(prefix, c, n)| == ItemsLeaves(c, n)
    decreases c, 1, n
  {
    if n > 0 {
      ItemsCount(prefix, c, n - 1);
      PairsCount(Bracket(prefix, NatToString(n - 1)), c.items[n - 1]);
    }
  }

  /** Every key in `ps` starts with `p`. */
  ghost predicate KeysStartWith(ps: seq<(string, string)>, p: string) {
    forall i :: 0 <= i < |ps| ==> StartsWith(ps[i].0, p)
  }

  lemma BracketStartsWith(prefix: string, key: string)
    ensures StartsWith(Bracket(prefix, key), prefix + "[")
  {
    StartsWithConcat(prefix + "[", key + "]");
    assert Bracket(prefix, key) == (prefix + "[") + (key + "]");
  }

  /** Keys starting with `a`, where `a` starts with `b`, start with `b`. */
  lemma KeysStartWithTrans(ps: seq<(string, string)>, a: string, b: string)
    requires KeysStartWith(ps, a) && StartsWith(a, b)
    ensures KeysStartWith(ps, b)
  {
    forall i | 0 <= i < |ps| ensures StartsWith(ps[i].0, b) {
      StartsWithTrans(ps[i].0, a, b);
    }
  }

  /** Every key `parse_deep_object(prefix, v)` returns starts with `prefix[`. */
  lemma {:induction false} KeysUnderPrefix(prefix: string, v: Value)
    requires Flattenable(v)
    ensures KeysStartWith(Pairs(prefix, v), prefix + "[")
    decreases v, 3
  {
    EntriesUnderPrefix(prefix, v, |v.entries|);
  }

  lemma {:induction false} EntriesUnderPrefix(prefix: string, v: Value, n: nat)
    requires Flattenable(v) && n <= |v.entries|
    ensures KeysStartWith(EntriesPairs(prefix, v, n), prefix + "[")
    decreases v, 2, n
  {
    if n > 0 {
      EntriesUnderPrefix(prefix, v, n - 1);
      var key := v.entries[n - 1].0;
      EntryUnderKey(prefix, key, v.entries[n - 1].1);
      BracketStartsWith(prefix, key);
      KeysStartWithTrans(EntryPairs(prefix, key, v.entries[n - 1].1), Bracket(prefix, key), prefix + "[");
    }
  }

  lemma {:induction false} EntryUnderKey(prefix: string, key: string, c: Value)
    requires EntryFlattenable(c)
    ensures KeysStartWith(EntryPairs(prefix, key, c), Bracket(prefix, key))
    decreases c, 4
  {
    var q := Bracket(prefix, key);
    StartsWithConcat(q, "[");
    match c {
      case Object(_) =>
        KeysUnderPrefix(q, c);
        KeysStartWithTrans(Pairs(q, c), q + "[", q);
      case Array(items) =>
        ItemsUnderPrefix(q, c, |items|);
        KeysStartWithTrans(ItemsPairs(q, c, |items|), q + "[", q);
      case String(_) =>
        StartsWithConcat(q, "");
        assert q + "" == q;
      case _ =>
        StartsWithConcat(q, "");
        assert q + "" == q;
    }
  }

  lemma {:induction false} ItemsUnderPrefix(prefix: string, c: Value, n: nat)
    requires c.Array? && EntryFlattenable(c) && n <= |c.items|
    ensures KeysStartWith(ItemsPairs(prefix, c, n), prefix + "[")
    decreases c, 1, n
  {
    if n > 0 {
      ItemsUnderPrefix(prefix, c, n - 1);
      var q := Bracket(prefix, NatToString(n - 1));
      KeysUnderPrefix(q, c.items[n - 1]);
      StartsWithConcat(q, "[");
      BracketStartsWith(prefix, NatToString(n - 1));
      StartsWithTrans(q + "[", q, prefix + "[");
      KeysStartWithTrans(Pairs(q, c.items[n - 1]), q + "[", prefix + "[");
    }
  }

  /** The pairs of the first `n` entries depend only on those entries. */
  lemma {:induction false} EntriesPairsOfPrefix(prefix: string, v: Value, w: Value, n: nat)
    requires Flattenable(v) && Flattenable(w) && n <= |v.entries| && n <= |w.entries|
    requires v.entries[..n] == w.entries[..n]
    ensures EntriesPairs(prefix, v, n) == EntriesPairs(prefix, w, n)
  {
    if n > 0 {
      assert v.entries[n - 1] == v.entries[..n][n - 1] == w.entries[n - 1];
      assert v.entries[..n - 1] == v.entries[..n][..n - 1];
      assert w.entries[..n - 1] == w.entries[..n][..n - 1];
      EntriesPairsOfPrefix(prefix, v, w, n - 1);
    }
  }

  /** Entries are flattened in iteration order: the pairs of `a + b` are those of `a`, then of `b`. */
  lemma PairsConcat(prefix: string, a: seq<(string, Value)>, b: seq<(string, Value)>)
    requires Flattenable(Object(a)) && Flattenable(Object(b))
    ensures Flattenable(Object(a + b))
    ensures Pairs(prefix, Object(a + b)) == Pairs(prefix, Object(a)) + Pairs(prefix, Object(b))
  {
    var ab := Object(a + b);
    assert Flattenable(ab) by {
      forall i | 0 <= i < |a + b| ensures EntryFlattenable((a + b)[i].1) {
        if i >= |a| { assert (a + b)[i] == b[i - |a|]; }
      }
    }
    assert ab.entries[..|a|] == Object(a).entries[..|a|];
    EntriesPairsOfPrefix(prefix, ab, Object(a), |a|);
    EntriesConcat(prefix, a, b, |b|);
  }

  lemma {:induction false} EntriesConcat(prefix: string, a: seq<(string, Value)>, b: seq<(string, Value)>, k: nat)
    requires Flattenable(Object(a + b)) && Flattenable(Object(b)) && k <= |b|
    requires Flattenable(Object(a))
    requires EntriesPairs(prefix, Object(a + b), |a|) == Pairs(prefix, Object(a))
    ensures EntriesPairs(prefix, Object(a + b), |a| + k) == Pairs(prefix, Object(a)) + EntriesPairs(prefix, Object(b), k)
  {
    if k > 0 {
      EntriesConcat(prefix, a, b, k - 1);
      assert (a + b)[|a| + k - 1] == b[k - 1];
    }
  }

  /** A string leaf under `key` yields `prefix[key]` with the raw, unquoted string. */
  lemma StringLeaf(prefix: string, key: string, s: string)
    ensures Flattenable(Object([(key, String(s))]))
    ensures Pairs(prefix, Object([(key, String(s))])) == [(prefix + "[" + key + "]", s)]
  {
    var v := Object([(key, String(s))]);
    assert Pairs(prefix, v) == EntriesPairs(prefix, v, 0) + EntryPairs(prefix, key, String(s));
  }

  /** Any other scalar under `key` yields `prefix[key]` with the value's JSON text. */
  lemma ScalarLeaf(prefix: string, key: string, v: Value)
    requires v.Null? || v.Bool? || v.Number?
    ensures Flattenable(Object([(key, v)]))
    ensures Pairs(prefix, Object([(key, v)])) == [(prefix + "[" + key + "]", ScalarText(v))]
  {
    var o := Object([(key, v)]);
    assert Pairs(prefix, o) == EntriesPairs(prefix, o, 0) + EntryPairs(prefix, key, v);
  }

  /** A nested object under `key` is flattened with prefix `prefix[key]`. */
  lemma NestedObject(prefix: string, key: string, o: Value)
    requires Flattenable(o)
    ensures Flattenable(Object([(key, o)]))
    ensures Pairs(prefix, Object([(key, o)])) == Pairs(prefix + "[" + key + "]", o)
  {
    var v := Object([(key, o)]);
    assert Pairs(prefix, v) == EntriesPairs(prefix, v, 0) + EntryPairs(prefix, key, o);
  }

  /** Element `i` of an array under `key` is flattened with prefix `prefix[key][i]`, after elements `0..i`. */
  lemma ArrayElement(prefix: string, key: string, items: seq<Value>, o: Value)
    requires forall j :: 0 <= j < |items| ==> Flattenable(items[j])
    requires Flattenable(o)
    ensures Flattenable(Object([(key, Array(items))])) && Flattenable(Object([(key, Array(items + [o]))]))
    ensures Pairs(prefix, Object([(key, Array(items + [o]))])) ==
              Pairs(prefix, Object([(key, Array(items))])) +
              Pairs(prefix + "[" + key + "][" + NatToString(|items|) + "]", o)
  {
    var q := Bracket(prefix, key);
    var c, c' := Array(items), Array(items + [o]);
    assert EntryFlattenable(c');
    assert c'.items[..|items|] == items == c.items[..|items|];
    ItemsPairsOfPrefix(q, c, c', |items|);
    assert EntryPairs(prefix, key, c') == ItemsPairs(q, c', |items|) + Pairs(Bracket(q, NatToString(|items|)), o);
    assert Bracket(q, NatToString(|items|)) == prefix + "[" + key + "][" + NatToString(|items|) + "]";
    var v, v' := Object([(key, c)]), Object([(key, c')]);
    assert Pairs(prefix, v) == EntriesPairs(prefix, v, 0) + EntryPairs(prefix, key, c);
    assert Pairs(prefix, v') == EntriesPairs(prefix, v', 0) + EntryPairs(prefix, key, c');
    assert c'.items[|items|] == o;
  }

  /** The pairs of the first `n` elements depend only on those elements. */
  lemma {:induction false} ItemsPairsOfPrefix(prefix: string, c: Value, d: Value, n: nat)
    requires c.Array? && d.Array? && EntryFlattenable(c) && EntryFlattenable(d)
    requires n <= |c.items| && n <= |d.items| && c.items[..n] == d.items[..n]
    ensures ItemsPairs(prefix, c, n) == ItemsPairs(prefix, d, n)
  {
    if n > 0 {
      assert c.items[n - 1] == c.items[..n][n - 1] == d.items[n - 1];
      assert c.items[..n - 1] == c.items[..n][..n - 1];
      assert d.items[..n - 1] == d.items[..n][..n - 1];
      ItemsPairsOfPrefix(prefix, c, d, n - 1);
    }
  }

  // ---------------------------------------------------------------------------
  // ContentType::from
  // ---------------------------------------------------------------------------

  /** The content types the generated client distinguishes. */
  datatype ContentType = Json | Text | Unsupported(mime: string)

  /** `ContentType::from(&str)`. */
  function ContentTypeFrom(contentType: string): (r: ContentType)
    ensures r.Unsupported? ==> r.mime == contentType
  {
    if StartsWith(contentType, "application") && Contains(contentType, "json") then Json
    else if StartsWith(contentType, "text/plain") then Text
    else Unsupported(contentType)
  }

  /**
   * The classification stated on slices: JSON iff the text begins with
   * "application" and has "json" somewhere; otherwise plain text iff it begins
   * with "text/plain"; otherwise unsupported, kept verbatim.
   */
  lemma ContentTypeSpec(s: string)
    ensures ContentTypeFrom(s) == Json <==>
              |s| >= 11 && s[..11] == "application" && exists j :: 0 <= j && SliceAt(s, "json", j)
    ensures ContentTypeFrom(s) == Text <==>
              ContentTypeFrom(s) != Json && |s| >= 10 && s[..10] == "text/plain"
    ensures ContentTypeFrom(s) == Unsupported(s) <==> ContentTypeFrom(s) != Json && ContentTypeFrom(s) != Text
  {
    StartsWithSpec(s, "application");
    StartsWithSpec(s, "text/plain");
    ContainsSpec(s, "json");
  }

  /** The callers' fallback when no header is sent is an unsupported content type. */
  lemma OctetStreamUnsupported()
    ensures ContentTypeFrom("application/octet-stream") == Unsupported("application/octet-stream")
  {
    var s := "application/octet-stream";
    assert forall i :: 0 <= i < |s| ==> s[i] != 'j';
    NotContainsFirstChar(s, "json", 0);
  }

  lemma ApplicationJsonIsJson()
    ensures ContentTypeFrom("application/json") == Json
  {
    assert ContainsFrom("application/json", "json", 12);
  }

  lemma TextPlainIsText()
    ensures ContentTypeFrom("text/plain; charset=utf-8") == Text
  {
    assert !StartsWith("text/plain; charset=utf-8", "application");
    assert StartsWith("text/plain; charset=utf-8", "text/plain");
  }

  /** Only the "application" family can be JSON. */
  lemma TextJsonUnsupported()
    ensures ContentTypeFrom("text/json") == Unsupported("text/json")
  {
  }

  // ---------------------------------------------------------------------------
  // The client's Error type
  // ---------------------------------------------------------------------------

  /** An error of a library the client calls (reqwest, serde_json, std::io), by its display text. */
  datatype ForeignError = ForeignError(text: string)

  /** `ResponseContent<T>`: a non-success status with its raw body and, if it parsed, its entity. */
  datatype ResponseContent<T> = ResponseContent(status: u16, content: string, entity: Option<T>)

  /** `apis::Error<T>`. */
  datatype ClientError<T> =
    | Reqwest(cause: ForeignError)
    | ReqwestMiddleware(cause: ForeignError)
    | Serde(cause: ForeignError)
    | Io(cause: ForeignError)
    | ResponseError(response: ResponseContent<T>)
  {
    /** The module name `Display` puts after "error in ". */
    function Module(): string {
      match this
      case Reqwest(_) => "reqwest"
      case ReqwestMiddleware(_) => "reqwest-middleware"
      case Serde(_) => "serde"
      case Io(_) => "IO"
      case ResponseError(_) => "response"
    }

    /**
     * `Display`. `statusText` is the HTTP library's `Display` of a status
     * code, which this model does not define.
     */
    function ToString(statusText: u16 -> string): string {
      match this
      case ResponseError(rc) => "error in " + Module() + ": " + "status code " + statusText(rc.status)
      case _ => "error in " + Module() + ": " + cause.text
    }

    /** `Error::source`: the wrapped library error; a response error has none. */
    function Source(): (r: Option<ForeignError>)
      ensures r.None? <==> ResponseError?
      ensures r.Some? ==> r.value == cause
    {
      match this
      case ResponseError(_) => None
      case _ => Some(cause)
    }
  }

  /** A response error displays as "error in response: status code " and the status, with no source. */
  lemma ResponseErrorDisplay<T>(rc: ResponseContent<T>, statusText: u16 -> string)
    ensures ResponseError(rc).ToString(statusText) == "error in response: status code " + statusText(rc.status)
    ensures ResponseError(rc).Source() == None
  {
  }
}
