/**
 * The parsed manifest as the message receives it: YAML scalars, lists and
 * hashes. A hash keeps its entries in insertion order, as a Ruby Hash does.
 */
module ManifestValue {
  import opened Wrappers

  datatype Value =
    | Null
    | Bool(b: bool)
    | Int(i: int)
    | Float(r: real)
    | Str(s: string)
    | List(items: seq<Value>)
    | Hash(entries: Entries)

  type Entries = seq<(string, Value)>

  /**
   * hash[key]: a Ruby Hash holds each key once, a later assignment replacing
   * an earlier one, so the value read is that of the last entry with the key.
   */
  function Lookup(h: Entries, key: string): (r: Option<Value>)
    ensures r.Some? <==> exists i :: 0 <= i < |h| && h[i].0 == key
    ensures r.Some? ==> exists i :: 0 <= i < |h| && h[i] == (key, r.value)
  {
    if h == [] then None
    else if h[|h| - 1].0 == key then Some(h[|h| - 1].1)
    else
      var r := Lookup(h[..|h| - 1], key);
      assert forall i :: 0 <= i < |h| - 1 ==> h[i] == h[..|h| - 1][i];
      r
  }

  /** requested?(key): the key was written, whatever its value (nil included). */
  predicate Requested(h: Entries, key: string) {
    Lookup(h, key).Some?
  }

  /** The value of an attribute, with an explicit nil read as absent (Hash#compact). */
  function Attribute(h: Entries, key: string): (r: Option<Value>)
    ensures r.Some? ==> r.value != Null && Lookup(h, key) == r
    ensures r.None? ==> Lookup(h, key) in {None, Some(Null)}
  {
    match Lookup(h, key)
    case Some(v) => if v == Null then None else Some(v)
    case None => None
  }

  /** The entries of every item when v is a list of hashes. */
  function HashItems(v: Value): (r: Option<seq<Entries>>)
    ensures r.Some? ==> v.List? && |r.value| == |v.items|
    ensures r.Some? ==> forall i :: 0 <= i < |r.value| ==> v.items[i] == Hash(r.value[i])
  {
    if v.List? && forall i :: 0 <= i < |v.items| ==> v.items[i].Hash? then
      Some(seq(|v.items|, i requires 0 <= i < |v.items| => v.items[i].entries))
    else None
  }

  /** String#underscore, restricted to what manifest keys use: '-' becomes '_'. */
  function Underscore(key: string): (r: string)
    ensures |r| == |key|
    ensures '-' !in r
    ensures forall i :: 0 <= i < |key| ==> r[i] == (if key[i] == '-' then '_' else key[i])
  {
    if key == [] then []
    else [if key[0] == '-' then '_' else key[0]] + Underscore(key[1..])
  }

  function UnderscoreEntries(h: Entries): (r: Entries)
    ensures |r| == |h|
    ensures forall i :: 0 <= i < |h| ==> r[i] == (Underscore(h[i].0), h[i].1)
  {
    seq(|h|, i requires 0 <= i < |h| => (Underscore(h[i].0), h[i].1))
  }

  /**
   * create_from_yml's key rewriting: top-level keys are underscored, and so
   * are the keys of every hash listed under processes; nothing deeper
   * (env keys keep their spelling).
   */
  function UnderscoreKeys(h: Entries): (r: Entries)
    ensures |r| == |h|
    ensures forall i :: 0 <= i < |h| ==> r[i].0 == Underscore(h[i].0) && '-' !in r[i].0
    ensures forall i :: 0 <= i < |h| && h[i].0 != "processes" ==> r[i].1 == h[i].1
    ensures forall i :: 0 <= i < |h| && h[i].0 == "processes" && !h[i].1.List? ==> r[i].1 == h[i].1
    ensures forall i :: 0 <= i < |h| && h[i].0 == "processes" && h[i].1.List? ==>
              r[i].1 == List(UnderscoreItems(h[i].1.items))
  {
    seq(|h|, i requires 0 <= i < |h| =>
      var (k, v) := h[i];
      (Underscore(k), if k == "processes" && v.List? then List(UnderscoreItems(v.items)) else v))
  }

  function UnderscoreItems(items: seq<Value>): (r: seq<Value>)
    ensures |r| == |items|
    ensures forall i :: 0 <= i < |items| ==> r[i].Hash? == items[i].Hash?
    ensures forall i :: 0 <= i < |items| && !items[i].Hash? ==> r[i] == items[i]
    ensures forall i :: 0 <= i < |items| && items[i].Hash? ==>
              r[i].entries == UnderscoreEntries(items[i].entries)
  {
    seq(|items|, i requires 0 <= i < |items| =>
      if items[i].Hash? then Hash(UnderscoreEntries(items[i].entries)) else items[i])
  }

  /** hash[key] is the value of the last entry written under key. */
  lemma {:induction false} LookupLast(h: Entries, i: nat)
    requires i < |h|
    requires forall j :: i < j < |h| ==> h[j].0 != h[i].0
    ensures Lookup(h, h[i].0) == Some(h[i].1)
    decreases |h|
  {
    if i < |h| - 1 {
      var front := h[..|h| - 1];
      assert front[i] == h[i];
      LookupLast(front, i);
    }
  }

  /**
   * After create_from_yml, an attribute written with hyphens
   * ('health-check-type') is read under its underscored name, unless a
   * later key underscores to the same name and so replaces it.
   */
  lemma UnderscoredLookup(h: Entries, i: nat)
    requires i < |h| && h[i].0 != "processes"
    requires forall j :: i < j < |h| ==> Underscore(h[j].0) != Underscore(h[i].0)
    ensures Lookup(UnderscoreKeys(h), Underscore(h[i].0)) == Some(h[i].1)
  {
    LookupLast(UnderscoreKeys(h), i);
  }

  /**
   * Keys that collide once underscored ('health-check-type' and
   * 'health_check_type') keep the value written last.
   */
  lemma CollidingKeysLastWins(h: Entries, i: nat, j: nat)
    requires i < j < |h| && Underscore(h[i].0) == Underscore(h[j].0) && h[j].0 != "processes"
    requires forall k :: j < k < |h| ==> Underscore(h[k].0) != Underscore(h[j].0)
    ensures Lookup(UnderscoreKeys(h), Underscore(h[i].0)) == Some(h[j].1)
  {
    UnderscoredLookup(h, j);
  }
}
