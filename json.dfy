/** JSON values as the schema builder assembles them, with objects as insertion-ordered
    dictionaries the way Python keeps them. */
module Json {
  import opened Common

  datatype Json =
    | JNull
    | JStr(str: string)
    | JInt(num: int)
    | JArr(items: seq<Json>)
    | JObj(fields: seq<(string, Json)>)

  /** The keys of an ordered dictionary, in order. */
  function Keys(d: seq<(string, Json)>): (r: seq<string>)
    ensures |r| == |d|
    ensures forall k :: 0 <= k < |d| ==> r[k] == d[k].0
  {
    if d == [] then [] else [d[0].0] + Keys(d[1..])
  }

  /** No key occurs twice, as in every Python dictionary. */
  predicate UniqueKeys(d: seq<(string, Json)>)
  {
    Distinct(Keys(d))
  }

  predicate Distinct(ks: seq<string>)
  {
    forall i, j :: 0 <= i < j < |ks| ==> ks[i] != ks[j]
  }

  /** `d[key]`, or nothing when the key is absent. */
  function Lookup(d: seq<(string, Json)>, key: string): (r: Option<Json>)
    ensures r.None? <==> key !in Keys(d)
  {
    if d == [] then None else if d[0].0 == key then Some(d[0].1) else Lookup(d[1..], key)
  }

  /** `d[key] = value`: an existing key keeps its place and gets the new value, a new
      key is added at the end. */
  function Put(d: seq<(string, Json)>, key: string, value: Json): (r: seq<(string, Json)>)
    ensures Lookup(r, key) == Some(value)
    ensures forall other :: other != key ==> Lookup(r, other) == Lookup(d, other)
    ensures key in Keys(d) ==> Keys(r) == Keys(d)
    ensures key !in Keys(d) ==> Keys(r) == Keys(d) + [key]
  {
    if d == [] then [(key, value)]
    else if d[0].0 == key then
      PutFront(d, key, value);
      [(key, value)] + d[1..]
    else
      var rest := Put(d[1..], key, value);
      PutBehind(d, key, value, rest);
      [d[0]] + rest
  }

  /** Writing the first key replaces its value in place. */
  lemma {:induction false} PutFront(d: seq<(string, Json)>, key: string, value: Json)
    requires d != [] && d[0].0 == key
    ensures var r := [(key, value)] + d[1..];
      Lookup(r, key) == Some(value)
      && (forall other :: other != key ==> Lookup(r, other) == Lookup(d, other))
      && Keys(r) == Keys(d)
  {
    var r := [(key, value)] + d[1..];
    assert r[1..] == d[1..];
  }

  /** Writing a later key keeps the first entry in front of the rewritten rest. */
  lemma {:induction false} PutBehind(d: seq<(string, Json)>, key: string, value: Json, rest: seq<(string, Json)>)
    requires d != [] && d[0].0 != key
    requires Lookup(rest, key) == Some(value)
    requires forall other :: other != key ==> Lookup(rest, other) == Lookup(d[1..], other)
    requires key in Keys(d[1..]) ==> Keys(rest) == Keys(d[1..])
    requires key !in Keys(d[1..]) ==> Keys(rest) == Keys(d[1..]) + [key]
    ensures var r := [d[0]] + rest;
      Lookup(r, key) == Some(value)
      && (forall other :: other != key ==> Lookup(r, other) == Lookup(d, other))
      && (key in Keys(d) ==> Keys(r) == Keys(d))
      && (key !in Keys(d) ==> Keys(r) == Keys(d) + [key])
  {
    var r := [d[0]] + rest;
    assert r[1..] == rest;
    forall other | other != key
      ensures Lookup(r, other) == Lookup(d, other)
    {
      LookupCons(d, r, other);
    }
    BehindKeys(d, key, rest);
  }

  /** Two dictionaries with the same first entry answer alike past it when their rests do. */
  lemma {:induction false} LookupCons(d: seq<(string, Json)>, r: seq<(string, Json)>, key: string)
    requires d != [] && r != [] && d[0] == r[0] && Lookup(r[1..], key) == Lookup(d[1..], key)
    ensures Lookup(r, key) == Lookup(d, key)
  {
  }

  /** The keys after writing a key behind the first entry. */
  lemma {:induction false} BehindKeys(d: seq<(string, Json)>, key: string, rest: seq<(string, Json)>)
    requires d != [] && d[0].0 != key
    requires key in Keys(d[1..]) ==> Keys(rest) == Keys(d[1..])
    requires key !in Keys(d[1..]) ==> Keys(rest) == Keys(d[1..]) + [key]
    ensures key in Keys(d) ==> Keys([d[0]] + rest) == Keys(d)
    ensures key !in Keys(d) ==> Keys([d[0]] + rest) == Keys(d) + [key]
  {
    var r := [d[0]] + rest;
    assert r[1..] == rest;
    assert Keys(r) == [d[0].0] + Keys(rest);
    assert Keys(d) == [d[0].0] + Keys(d[1..]);
    assert key in Keys(d) <==> key in Keys(d[1..]);
  }

  /** Writing a key keeps the keys distinct. */
  lemma {:induction false} PutKeepsUnique(d: seq<(string, Json)>, key: string, value: Json)
    requires UniqueKeys(d)
    ensures UniqueKeys(Put(d, key, value))
  {
    var ks, rs := Keys(d), Keys(Put(d, key, value));
    if key !in ks {
      forall i, j | 0 <= i < j < |rs|
        ensures rs[i] != rs[j]
      {
        if j == |ks| {
          assert rs[i] == ks[i];
        }
      }
    }
  }

  /** Writing the same key twice keeps only the second value. */
  lemma {:induction false} PutTwice(d: seq<(string, Json)>, key: string, v1: Json, v2: Json)
    ensures Put(Put(d, key, v1), key, v2) == Put(d, key, v2)
  {
    if d != [] && d[0].0 != key {
      PutTwice(d[1..], key, v1, v2);
    }
  }

  /** The keys left after every occurrence of `key` is removed, in their order. */
  function Without(ks: seq<string>, key: string): (r: seq<string>)
    ensures key !in r
    ensures forall k :: k in r <==> k in ks && k != key
  {
    if ks == [] then [] else (if ks[0] == key then [] else [ks[0]]) + Without(ks[1..], key)
  }

  /** `del d[key]` for a key that is present: its entry goes, the others keep their
      values and their order. */
  function Delete(d: seq<(string, Json)>, key: string): (r: seq<(string, Json)>)
    ensures Lookup(r, key) == None
    ensures forall other :: other != key ==> Lookup(r, other) == Lookup(d, other)
    ensures Keys(r) == Without(Keys(d), key)
  {
    if d == [] then []
    else if d[0].0 == key then Delete(d[1..], key)
    else [d[0]] + Delete(d[1..], key)
  }

  /** Removing a key that is absent leaves the dictionary as it was. */
  lemma {:induction false} DeleteAbsent(d: seq<(string, Json)>, key: string)
    requires key !in Keys(d)
    ensures Delete(d, key) == d
  {
    if d != [] {
      assert Keys(d) == [d[0].0] + Keys(d[1..]);
      DeleteAbsent(d[1..], key);
    }
  }

  /** Writing two different keys in either order gives the same lookups. */
  lemma {:induction false} PutCommutesOnLookup(d: seq<(string, Json)>, k1: string, v1: Json, k2: string, v2: Json, key: string)
    requires k1 != k2
    ensures Lookup(Put(Put(d, k1, v1), k2, v2), key) == Lookup(Put(Put(d, k2, v2), k1, v1), key)
  {
  }
}
