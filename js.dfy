/** JavaScript values as the pages see them, objects as their ordered list of
    entries (`Object.entries`), truthiness, and the two ways the pages drop
    empty fields from a form before sending it. */
module Js {
  import opened Wrappers
  import Seqs

  /** A JSON-like value. Numbers are modelled as integers. */
  datatype Value =
    | Str(s: string)
    | Num(n: int)
    | Bool(b: bool)
    | Null
    | Undefined
    | Obj(entries: seq<(string, Value)>)

  /** An object, as the sequence of its own entries in insertion order. */
  type Entries = seq<(string, Value)>

  /** JavaScript truthiness (`if (v)`, `v || d`, `.filter(([_, v]) => v)`). */
  predicate Truthy(v: Value) {
    match v
    case Str(s) => s != ""
    case Num(n) => n != 0
    case Bool(b) => b
    case Null => false
    case Undefined => false
    case Obj(_) => true
  }

  /** `v || fallback`. */
  function Or(v: Value, fallback: Value): (r: Value)
    ensures Truthy(v) ==> r == v
    ensures !Truthy(v) ==> r == fallback
  {
    if Truthy(v) then v else fallback
  }

  function Keys(e: Entries): (ks: seq<string>)
    ensures |ks| == |e|
    ensures forall i :: 0 <= i < |e| ==> ks[i] == e[i].0
  {
    if e == [] then [] else [e[0].0] + Keys(e[1..])
  }

  /** `obj[key]`: the value of the first entry with that key, `None` when the
      object has no such own property. */
  function Lookup(e: Entries, key: string): (r: Option<Value>)
    ensures r.None? <==> key !in Keys(e)
    ensures r.Some? ==> (key, r.value) in e
  {
    if e == [] then None
    else if e[0].0 == key then Some(e[0].1)
    else Lookup(e[1..], key)
  }

  /** `{...obj, [key]: value}`: an existing key keeps its place and takes the
      new value; a new key is appended at the end. */
  function Put(e: Entries, key: string, value: Value): (r: Entries)
    ensures key in Keys(e) ==> Keys(r) == Keys(e)
    ensures key !in Keys(e) ==> Keys(r) == Keys(e) + [key]
    ensures Lookup(r, key) == Some(value)
    ensures forall k :: k != key ==> Lookup(r, k) == Lookup(e, k)
  {
    if e == [] then [(key, value)]
    else if e[0].0 == key then [(key, value)] + e[1..]
    else [e[0]] + Put(e[1..], key, value)
  }

  /** `obj[key]`, with `undefined` for a missing property. */
  function Get(e: Entries, key: string): (r: Value)
    ensures key !in Keys(e) ==> r == Undefined
    ensures key in Keys(e) ==> Lookup(e, key) == Some(r)
  {
    Lookup(e, key).GetOr(Undefined)
  }

  /** No key occurs twice, as in every object built from a literal. */
  predicate DistinctKeys(e: Entries) {
    forall i, j :: 0 <= i < j < |e| ==> e[i].0 != e[j].0
  }

  /** In an object without repeated keys, reading the key of an entry
      gives that entry's value. */
  lemma {:induction false} LookupAt(e: Entries, i: nat)
    requires DistinctKeys(e) && i < |e|
    ensures Lookup(e, e[i].0) == Some(e[i].1)
  {
    if i > 0 {
      assert e[1..][i - 1] == e[i];
      assert DistinctKeys(e[1..]);
      LookupAt(e[1..], i - 1);
    }
  }

  /** The payload entry of the `i`th field after dropping `""` values. */
  lemma OmitEmptyStringsAt(e: Entries, i: nat)
    requires DistinctKeys(e) && i < |e|
    ensures Lookup(OmitEmptyStrings(e), e[i].0) == if e[i].1 == Str("") then None else Some(e[i].1)
  {
    LookupAt(e, i);
    LookupOmitEmptyStrings(e, e[i].0);
  }

  /** The payload entry of the `i`th field after dropping falsy values. */
  lemma OmitFalsyAt(e: Entries, i: nat)
    requires DistinctKeys(e) && i < |e|
    ensures Lookup(OmitFalsy(e), e[i].0) == if Truthy(e[i].1) then Some(e[i].1) else None
  {
    LookupAt(e, i);
    LookupOmitFalsy(e, e[i].0);
  }

  /** Nothing is dropped from an object whose values are all truthy. */
  lemma OmitFalsyKeepsTruthy(e: Entries)
    requires forall i :: 0 <= i < |e| ==> Truthy(e[i].1)
    ensures OmitFalsy(e) == e
  {
    Seqs.FilterKeepsAll(e, (kv: (string, Value)) => Truthy(kv.1));
  }

  /** Neither filter adds a key. */
  lemma OmitNoNewKeys(e: Entries, key: string)
    requires key !in Keys(e)
    ensures Lookup(OmitEmptyStrings(e), key).None? && Lookup(OmitFalsy(e), key).None?
  {
    FilteredKeys(e, (kv: (string, Value)) => kv.1 != Str(""), key);
    FilteredKeys(e, (kv: (string, Value)) => Truthy(kv.1), key);
  }

  /** An entry in front of an object without repeated keys keeps the keys
      distinct when its key is new. */
  lemma DistinctKeysCons(x: (string, Value), rest: Entries)
    requires DistinctKeys(rest) && x.0 !in Keys(rest)
    ensures DistinctKeys([x] + rest)
  {
    var e := [x] + rest;
    forall i, j | 0 <= i < j < |e| ensures e[i].0 != e[j].0 {
      assert e[j] == rest[j - 1];
      if i == 0 {
        assert Keys(rest)[j - 1] == rest[j - 1].0;
      } else {
        assert e[i] == rest[i - 1];
      }
    }
  }

  /** Setting a property never repeats a key. */
  lemma {:induction false} PutKeepsDistinct(e: Entries, key: string, value: Value)
    requires DistinctKeys(e)
    ensures DistinctKeys(Put(e, key, value))
  {
    if e == [] {
    } else if e[0].0 == key {
      assert DistinctKeys(e[1..]);
      assert Keys(e) == [key] + Keys(e[1..]);
      assert key !in Keys(e[1..]) by {
        forall j | 0 <= j < |e[1..]| ensures Keys(e[1..])[j] != key {
          assert e[1..][j] == e[j + 1];
        }
      }
      DistinctKeysCons((key, value), e[1..]);
    } else {
      var rest := e[1..];
      assert DistinctKeys(rest);
      PutKeepsDistinct(rest, key, value);
      assert e[0].0 !in Keys(rest) by {
        forall j | 0 <= j < |rest| ensures Keys(rest)[j] != e[0].0 {
          assert rest[j] == e[j + 1];
        }
      }
      assert e[0].0 !in Keys(Put(rest, key, value));
      DistinctKeysCons(e[0], Put(rest, key, value));
    }
  }

  /** A filtered object has no key its source lacked. */
  lemma FilteredKeys(e: Entries, keep: ((string, Value)) -> bool, key: string)
    requires key !in Keys(e)
    ensures key !in Keys(Seqs.Filter(e, keep))
  {
  }

  /** Reading a key of a filtered object: the source's value when it passes
      the filter, otherwise nothing. */
  lemma {:induction false} LookupFiltered(e: Entries, keep: ((string, Value)) -> bool, key: string)
    requires DistinctKeys(e)
    ensures Lookup(e, key).None? ==> Lookup(Seqs.Filter(e, keep), key).None?
    ensures Lookup(e, key).Some? && keep((key, Lookup(e, key).value))
            ==> Lookup(Seqs.Filter(e, keep), key) == Lookup(e, key)
    ensures Lookup(e, key).Some? && !keep((key, Lookup(e, key).value))
            ==> Lookup(Seqs.Filter(e, keep), key).None?
  {
    if e == [] {
      assert Seqs.Filter(e, keep) == [];
    } else {
      var rest := e[1..];
      var fr := Seqs.Filter(rest, keep);
      var r := Seqs.Filter(e, keep);
      assert r == (if keep(e[0]) then [e[0]] else []) + fr;
      if e[0].0 == key {
        assert Lookup(e, key) == Some(e[0].1);
        assert e[0] == (key, e[0].1);
        if keep(e[0]) {
          assert r[0] == e[0];
        } else {
          assert r == fr;
          assert key !in Keys(rest);
          FilteredKeys(rest, keep, key);
        }
      } else {
        assert Lookup(e, key) == Lookup(rest, key);
        assert DistinctKeys(rest);
        LookupFiltered(rest, keep, key);
        if keep(e[0]) {
          assert r[0].0 != key && r[1..] == fr;
        } else {
          assert r == fr;
        }
      }
    }
  }

  /** After dropping `""` values, a key is present exactly when its value
      was present and not `""`, and it keeps that value. */
  lemma LookupOmitEmptyStrings(e: Entries, key: string)
    requires DistinctKeys(e)
    ensures Lookup(OmitEmptyStrings(e), key)
         == match Lookup(e, key)
            case Some(v) => if v != Str("") then Some(v) else None
            case None => None
  {
    var keep := (kv: (string, Value)) => kv.1 != Str("");
    LookupFiltered(e, keep, key);
  }

  /** After dropping falsy values, a key is present exactly when its value
      was present and truthy, and it keeps that value. */
  lemma LookupOmitFalsy(e: Entries, key: string)
    requires DistinctKeys(e)
    ensures Lookup(OmitFalsy(e), key)
         == match Lookup(e, key)
            case Some(v) => if Truthy(v) then Some(v) else None
            case None => None
  {
    var keep := (kv: (string, Value)) => Truthy(kv.1);
    LookupFiltered(e, keep, key);
  }

  /** `.filter(([_, v]) => v !== "")`. */
  function OmitEmptyStrings(e: Entries): (r: Entries)
  {
    Seqs.Filter(e, (kv: (string, Value)) => kv.1 != Str(""))
  }

  /** `.filter(([_, v]) => v)`. */
  function OmitFalsy(e: Entries): (r: Entries)
  {
    Seqs.Filter(e, (kv: (string, Value)) => Truthy(kv.1))
  }

  /** The payload keeps exactly the entries whose value is not `""`, in their
      original order. */
  lemma OmitEmptyStringsExact(e: Entries, key: string, v: Value)
    ensures (key, v) in OmitEmptyStrings(e) <==> (key, v) in e && v != Str("")
  {
    var r := OmitEmptyStrings(e);
    if (key, v) in e && v != Str("") {
      var i :| 0 <= i < |e| && e[i] == (key, v);
    }
    if (key, v) in r {
      var i :| 0 <= i < |r| && r[i] == (key, v);
    }
  }

  /** The payload keeps exactly the entries whose value is truthy. */
  lemma OmitFalsyExact(e: Entries, key: string, v: Value)
    ensures (key, v) in OmitFalsy(e) <==> (key, v) in e && Truthy(v)
  {
    var r := OmitFalsy(e);
    if (key, v) in e && Truthy(v) {
      var i :| 0 <= i < |e| && e[i] == (key, v);
    }
    if (key, v) in r {
      var i :| 0 <= i < |r| && r[i] == (key, v);
    }
  }

  /** Every value is either the empty string or truthy: the only falsy value
      such an object can hold is `""`. */
  predicate FalsyOnlyWhenEmpty(e: Entries) {
    forall i :: 0 <= i < |e| ==> e[i].1 == Str("") || Truthy(e[i].1)
  }

  /** On such objects (in particular on objects whose values are all strings)
      dropping `""` and dropping falsy values send the same payload. */
  lemma OmitFiltersAgree(e: Entries)
    requires FalsyOnlyWhenEmpty(e)
    ensures OmitEmptyStrings(e) == OmitFalsy(e)
  {
    Seqs.FilterCongruent(e, (kv: (string, Value)) => kv.1 != Str(""), (kv: (string, Value)) => Truthy(kv.1));
  }

  /** Objects whose values are all strings satisfy `FalsyOnlyWhenEmpty`. */
  predicate AllStrings(e: Entries) {
    forall i :: 0 <= i < |e| ==> e[i].1.Str?
  }

  lemma AllStringsFalsyOnlyWhenEmpty(e: Entries)
    requires AllStrings(e)
    ensures FalsyOnlyWhenEmpty(e)
  {
  }

  /** A value the two filters treat differently: `null` survives `!== ""`. */
  lemma OmitFiltersDifferOnNull()
    ensures OmitEmptyStrings([("image", Null)]) == [("image", Null)]
    ensures OmitFalsy([("image", Null)]) == []
  {
    var e: Entries := [("image", Null)];
    assert e[1..] == [];
  }
}
