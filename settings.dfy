/** Keyword-argument dictionaries: the `settings` of a categoriser and the
    `**kwargs` its `train` receives. A dictionary is an association list,
    read by its first entry for a key, and iterated in insertion order. That
    is the order of the `OrderedDict`s the categorisers build; a plain Python 2
    `dict`, such as the copy of `**kwargs`, iterates in hash order instead,
    which this model does not capture. */
module Settings {
  import opened Options

  /** The values the keyword arguments take: numbers (cutoffs), flags such as
      `best=True`, column index lists, strings (e.g. `loss='log'`) and nested
      dictionaries (the per-stage options `one={...}` of a chain). */
  datatype Value =
    | Num(x: real)
    | Flag(b: bool)
    | Indices(ix: seq<int>)
    | Text(s: string)
    | Dict(entries: seq<(string, Value)>)

  type Entries = seq<(string, Value)>

  /** `d.get(k)`. */
  function Get(d: Entries, k: string): Option<Value>
  {
    if d == [] then None
    else if d[0].0 == k then Some(d[0].1)
    else Get(d[1..], k)
  }

  /** A lookup finds an entry of the dictionary under that key, and misses
      only when no entry has the key. */
  lemma {:induction false} GetFound(d: Entries, k: string)
    ensures Get(d, k).Some? ==> (k, Get(d, k).value) in d
    ensures Get(d, k).None? ==> forall i :: 0 <= i < |d| ==> d[i].0 != k
  {
    if d != [] && d[0].0 != k {
      GetFound(d[1..], k);
      assert forall i :: 1 <= i < |d| ==> d[i] == d[1..][i - 1];
    }
  }

  /** The keys, in iteration order (`d.keys()`). */
  function Keys(d: Entries): (ks: seq<string>)
    ensures |ks| == |d| && forall i :: 0 <= i < |d| ==> ks[i] == d[i].0
  {
    seq(|d|, i requires 0 <= i < |d| => d[i].0)
  }

  /** `d[k] = v`: an existing key keeps its position and takes the new value,
      a new key goes at the end. */
  function Put(d: Entries, k: string, v: Value): (r: Entries)
    ensures Get(r, k) == Some(v)
  {
    if d == [] then [(k, v)]
    else if d[0].0 == k then [(k, v)] + d[1..]
    else [d[0]] + Put(d[1..], k, v)
  }

  /** `d[k] = v` leaves every other key as it was. */
  lemma {:induction false} PutOther(d: Entries, k: string, v: Value, k': string)
    requires k' != k
    ensures Get(Put(d, k, v), k') == Get(d, k')
  {
    if d != [] && d[0].0 != k {
      PutOther(d[1..], k, v, k');
    }
  }

  /** Where `d[k] = v` puts the key: in place when present, else at the end. */
  lemma {:induction false} PutOrder(d: Entries, k: string, v: Value)
    ensures Get(d, k).Some? ==> Keys(Put(d, k, v)) == Keys(d)
    ensures Get(d, k).None? ==> Put(d, k, v) == d + [(k, v)]
  {
    if d != [] && d[0].0 != k {
      PutOrder(d[1..], k, v);
      assert Put(d, k, v) == [d[0]] + Put(d[1..], k, v);
      assert d == [d[0]] + d[1..];
    }
  }

  /** `d` without key k: what remains of `**opts` once Python has bound the
      entry named after a parameter to that parameter. */
  function Remove(d: Entries, k: string): (r: Entries)
    ensures Get(r, k) == None
    ensures |r| <= |d|
  {
    if d == [] then []
    else if d[0].0 == k then Remove(d[1..], k)
    else [d[0]] + Remove(d[1..], k)
  }

  /** Removing key k leaves every other key as it was. */
  lemma {:induction false} RemoveOther(d: Entries, k: string, k': string)
    requires k' != k
    ensures Get(Remove(d, k), k') == Get(d, k')
  {
    if d != [] {
      RemoveOther(d[1..], k, k');
    }
  }

  /** The keys present, as a set (`set(d)`). */
  ghost function KeySet(d: Entries): set<string>
  {
    set i | 0 <= i < |d| :: d[i].0
  }

  /** A Python dictionary holds each key once. */
  ghost predicate DistinctKeys(d: Entries)
  {
    forall i, j :: 0 <= i < j < |d| ==> d[i].0 != d[j].0
  }

  /** Splitting off the first entry: its key is absent from the rest. */
  lemma DistinctKeysCons(d: Entries)
    requires d != []
    ensures DistinctKeys(d) <==> d[0].0 !in KeySet(d[1..]) && DistinctKeys(d[1..])
  {
    if DistinctKeys(d) {
      forall j | 0 <= j < |d[1..]| ensures d[1..][j].0 != d[0].0 {
        assert d[1..][j] == d[j + 1];
      }
    }
    if d[0].0 !in KeySet(d[1..]) && DistinctKeys(d[1..]) {
      forall i, j | 0 <= i < j < |d| ensures d[i].0 != d[j].0 {
        assert d[j] == d[1..][j - 1];
        if i > 0 {
          assert d[i] == d[1..][i - 1];
        }
      }
    }
  }

  lemma KeySetCons(e: (string, Value), d: Entries)
    ensures KeySet([e] + d) == {e.0} + KeySet(d)
  {
    var r := [e] + d;
    forall x | x in KeySet(r) ensures x in {e.0} + KeySet(d) {
      var i :| 0 <= i < |r| && r[i].0 == x;
      if i > 0 {
        assert r[i] == d[i - 1];
      }
    }
    forall x | x in KeySet(d) ensures x in KeySet(r) {
      var i :| 0 <= i < |d| && d[i].0 == x;
      assert r[i + 1] == d[i];
    }
    assert r[0].0 == e.0;
  }

  /** `d[k] = v` adds k to the keys and no other. */
  lemma {:induction false} PutKeySet(d: Entries, k: string, v: Value)
    ensures KeySet(Put(d, k, v)) == KeySet(d) + {k}
  {
    if d == [] {
      assert KeySet([(k, v)]) == {k} by { KeySetCons((k, v), []); }
    } else {
      assert d == [d[0]] + d[1..];
      KeySetCons(d[0], d[1..]);
      if d[0].0 == k {
        KeySetCons((k, v), d[1..]);
      } else {
        PutKeySet(d[1..], k, v);
        KeySetCons(d[0], Put(d[1..], k, v));
      }
    }
  }

  /** Removing k takes k from the keys and no other. */
  lemma {:induction false} RemoveKeySet(d: Entries, k: string)
    ensures KeySet(Remove(d, k)) == KeySet(d) - {k}
  {
    if d != [] {
      assert d == [d[0]] + d[1..];
      KeySetCons(d[0], d[1..]);
      RemoveKeySet(d[1..], k);
      if d[0].0 != k {
        KeySetCons(d[0], Remove(d[1..], k));
      }
    }
  }

  /** `d[k] = v` on a dictionary gives a dictionary: every key still once. */
  lemma {:induction false} PutDistinct(d: Entries, k: string, v: Value)
    requires DistinctKeys(d)
    ensures DistinctKeys(Put(d, k, v))
  {
    if d == [] {
    } else {
      DistinctKeysCons(d);
      var r := Put(d, k, v);
      if d[0].0 == k {
        assert r[1..] == d[1..];
      } else {
        PutDistinct(d[1..], k, v);
        PutKeySet(d[1..], k, v);
        assert r[1..] == Put(d[1..], k, v);
      }
      DistinctKeysCons(r);
    }
  }

  /** Removing a key from a dictionary gives a dictionary. */
  lemma {:induction false} RemoveDistinct(d: Entries, k: string)
    requires DistinctKeys(d)
    ensures DistinctKeys(Remove(d, k))
  {
    if d != [] {
      DistinctKeysCons(d);
      RemoveDistinct(d[1..], k);
      var r := Remove(d, k);
      if d[0].0 != k {
        RemoveKeySet(d[1..], k);
        assert r[1..] == Remove(d[1..], k);
        DistinctKeysCons(r);
      }
    }
  }

  /** Python truthiness, as `if not indices:` reads it. */
  predicate Truthy(v: Value)
  {
    match v
    case Num(x) => x != 0.0
    case Flag(b) => b
    case Indices(ix) => |ix| > 0
    case Text(s) => |s| > 0
    case Dict(e) => |e| > 0
  }

  /** `v == True` in Python, where `1 == True` and `1.0 == True` hold. */
  predicate EqualsTrue(v: Value)
  {
    v == Flag(true) || v == Num(1.0)
  }
}
