/**
 * The parsed JSON values the relay works on, with the parts of Python's dict
 * and iteration semantics that the webhook dispatcher relies on.
 */
module Json {

  datatype Option<+T> = None | Some(value: T)

  /** A JSON document as `json.loads` produces it. Numbers are kept as integers:
      for everything modelled here a number only matters as "not a string,
      not iterable, not a dict". */
  datatype Json =
    | JNull
    | JBool(b: bool)
    | JNum(n: int)
    | JStr(s: string)
    | JArr(items: seq<Json>)
    | JObj(fields: map<string, Json>)

  /** `d.get(key, default)` on a dict. A key that is present with value
      `null` yields `JNull`, not the default. */
  function Get(d: map<string, Json>, key: string, default: Json): Json
  {
    if key in d then d[key] else default
  }

  /** What a Python generator produces when it is driven to the end: the items
      it yields, and whether the step after the last item raises. */
  datatype Gen<T> = Gen(items: seq<T>, raises: bool)

  /** Chaining two generators: the second one is only started when the first
      one ends without raising. */
  function Then<T>(a: Gen<T>, b: Gen<T>): Gen<T>
  {
    if a.raises then a else Gen(a.items + b.items, b.raises)
  }

  /** A generator that yields nothing and ends normally changes nothing when
      chained on either side. */
  lemma ThenIdentity<T>(g: Gen<T>)
    ensures Then(Gen([], false), g) == g
    ensures Then(g, Gen([], false)) == g
  {
    assert [] + g.items == g.items;
    assert g.items + [] == g.items;
  }

  /** Chaining is associative, so a nested traversal may be grouped either way. */
  lemma ThenAssoc<T>(a: Gen<T>, b: Gen<T>, c: Gen<T>)
    ensures Then(Then(a, b), c) == Then(a, Then(b, c))
  {
    if !a.raises && !b.raises {
      assert (a.items + b.items) + c.items == a.items + (b.items + c.items);
    }
  }

  /** `for x in v: x.get(...)`: the dicts reached before the loop meets an
      element that is not a dict (AttributeError on `.get`) or finds that `v`
      is not iterable at all (TypeError). Iterating a non-empty string or dict
      yields strings, so it raises at the first element; iterating an empty
      one yields nothing. */
  function Dicts(v: Json): (g: Gen<map<string, Json>>)
    ensures !g.raises <==> (v.JArr? && forall x :: x in v.items ==> x.JObj?) || v == JStr("") || v == JObj(map[])
    ensures !v.JArr? ==> g.items == []
    ensures v.JArr? ==> |g.items| <= |v.items| && forall k :: 0 <= k < |g.items| ==> v.items[k] == JObj(g.items[k])
    ensures v.JArr? && !g.raises ==> |g.items| == |v.items|
    ensures v.JArr? && g.raises ==> |g.items| < |v.items| && !v.items[|g.items|].JObj?
  {
    match v
    case JArr(xs) => DictPrefix(xs)
    case JStr(s) => Gen([], s != [])
    case JObj(m) => Gen([], m != map[])
    case _ => Gen([], true)
  }

  /** The longest prefix of `xs` made of dicts; raises when it stops short. */
  function DictPrefix(xs: seq<Json>): (g: Gen<map<string, Json>>)
    ensures |g.items| <= |xs|
    ensures forall k :: 0 <= k < |g.items| ==> xs[k] == JObj(g.items[k])
    ensures g.raises <==> exists k :: 0 <= k < |xs| && !xs[k].JObj?
    ensures g.raises ==> |g.items| < |xs| && !xs[|g.items|].JObj?
    ensures !g.raises ==> |g.items| == |xs|
  {
    if xs == [] then Gen([], false)
    else if !xs[0].JObj? then Gen([], true)
    else
      var rest := DictPrefix(xs[1..]);
      assert forall k :: 1 <= k < |xs| ==> xs[k] == xs[1..][k - 1];
      Gen([xs[0].fields] + rest.items, rest.raises)
  }

  /** The JSON array holding the given dicts. */
  function DictArray(ds: seq<map<string, Json>>): (j: Json)
    ensures j.JArr? && |j.items| == |ds|
    ensures forall k :: 0 <= k < |ds| ==> j.items[k] == JObj(ds[k])
  {
    JArr(seq(|ds|, k requires 0 <= k < |ds| => JObj(ds[k])))
  }

  /** Iterating an array of dicts yields exactly those dicts and never raises. */
  lemma DictsOfDictArray(ds: seq<map<string, Json>>)
    ensures Dicts(DictArray(ds)) == Gen(ds, false)
  {
  }
}
