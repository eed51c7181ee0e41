/** Python dictionaries with string keys, as ordered association lists.

    A Python dict remembers insertion order: assigning to a key that is already
    present replaces its value where it stands, assigning to a new key appends it.
    `{**a, **b}` and `a.update(b)` both assign b's entries one by one, in b's
    order, so both are `Update` below. */
module PyDicts {
  import opened PyValues

  type Dict = seq<(string, Value)>

  /** The keys in iteration order. */
  function Keys(d: Dict): (ks: seq<string>)
    ensures |ks| == |d|
    ensures forall i :: 0 <= i < |d| ==> ks[i] == d[i].0
  {
    if d == [] then [] else [d[0].0] + Keys(d[1..])
  }

  predicate Distinct(ks: seq<string>) {
    forall i, j :: 0 <= i < j < |ks| ==> ks[i] != ks[j]
  }

  /** What every Python dict satisfies: no key occurs twice. */
  predicate IsDict(d: Dict) {
    Distinct(Keys(d))
  }

  /** `d.get(k)`, with `None` of Option standing for an absent key. */
  function Get(d: Dict, k: string): Option<Value> {
    if d == [] then None
    else if d[0].0 == k then Some(d[0].1)
    else Get(d[1..], k)
  }

  /** `d.get(k)` as Python returns it: the `None` value for an absent key. */
  function GetOrNull(d: Dict, k: string): Value {
    match Get(d, k)
    case Some(v) => v
    case None => Null
  }

  /** `d[k] = v`. */
  function Set(d: Dict, k: string, v: Value): Dict {
    if d == [] then [(k, v)]
    else if d[0].0 == k then [(k, v)] + d[1..]
    else [d[0]] + Set(d[1..], k, v)
  }

  /** `d.update(p)`, and the dict display `{**d, **p}`: p's entries assigned in p's order. */
  function Update(d: Dict, p: Dict): Dict
    decreases |p|
  {
    if p == [] then d else Update(Set(d, p[0].0, p[0].1), p[1..])
  }

  /** Dropping the first entry of a dict leaves a dict. */
  lemma TailDict(d: Dict)
    requires IsDict(d) && d != []
    ensures IsDict(d[1..])
  {
  }

  /** `Get` finds a key exactly when the key is present. */
  lemma {:induction false} GetPresent(d: Dict, k: string)
    ensures Get(d, k).Some? <==> k in Keys(d)
  {
    if d != [] {
      GetPresent(d[1..], k);
      assert Keys(d) == [d[0].0] + Keys(d[1..]);
    }
  }

  /** In a dict, `Get` returns the value stored next to the key. */
  lemma {:induction false} GetAt(d: Dict, i: nat)
    requires IsDict(d) && i < |d|
    ensures Get(d, d[i].0) == Some(d[i].1)
  {
    if i > 0 {
      assert Keys(d)[0] != Keys(d)[i];
      TailDict(d);
      GetAt(d[1..], i - 1);
    }
  }

  /** Assignment stores the new value under k and leaves every other key alone. */
  lemma {:induction false} SetGet(d: Dict, k: string, v: Value, k': string)
    ensures Get(Set(d, k, v), k') == if k' == k then Some(v) else Get(d, k')
  {
    if d != [] && d[0].0 != k {
      SetGet(d[1..], k, v, k');
    }
  }

  /** Assignment keeps a present key where it stands and appends a new one. */
  lemma {:induction false} SetKeys(d: Dict, k: string, v: Value)
    ensures Keys(Set(d, k, v)) == if k in Keys(d) then Keys(d) else Keys(d) + [k]
  {
    if d != [] && d[0].0 != k {
      SetKeys(d[1..], k, v);
      assert Keys(d) == [d[0].0] + Keys(d[1..]);
      assert Keys(Set(d, k, v)) == [d[0].0] + Keys(Set(d[1..], k, v));
    }
  }

  /** Assignment keeps a dict a dict. */
  lemma SetDict(d: Dict, k: string, v: Value)
    requires IsDict(d)
    ensures IsDict(Set(d, k, v))
  {
    SetKeys(d, k, v);
  }

  /** After `d.update(p)` every key of p holds p's value and every other key
      holds what it held in d. */
  lemma {:induction false} UpdateGet(d: Dict, p: Dict, k: string)
    requires IsDict(p)
    ensures Get(Update(d, p), k) == if k in Keys(p) then Get(p, k) else Get(d, k)
    decreases |p|
  {
    if p != [] {
      var e, rest := p[0], p[1..];
      assert Keys(p) == [e.0] + Keys(rest);
      TailDict(p);
      UpdateGet(Set(d, e.0, e.1), rest, k);
      SetGet(d, e.0, e.1, k);
      if k in Keys(rest) {
        var j :| 0 <= j < |rest| && Keys(rest)[j] == k;
        assert Keys(p)[0] != Keys(p)[j + 1];
      }
    }
  }

  /** The keys of ks that are not in seen, each once, in ks's order: the keys an
      update with ks appends to a dict whose keys are seen. */
  function NewKeys(ks: seq<string>, seen: seq<string>): seq<string> {
    if ks == [] then []
    else if ks[0] in seen then NewKeys(ks[1..], seen)
    else [ks[0]] + NewKeys(ks[1..], seen + [ks[0]])
  }

  /** `d.update(p)` has exactly the keys of d and of p; the keys of d keep their
      positions at the front. */
  lemma {:induction false} UpdateKeys(d: Dict, p: Dict)
    ensures forall k :: k in Keys(Update(d, p)) <==> k in Keys(d) || k in Keys(p)
    ensures Keys(d) <= Keys(Update(d, p))
    decreases |p|
  {
    if p != [] {
      var e, rest := p[0], p[1..];
      assert Keys(p) == [e.0] + Keys(rest);
      SetKeys(d, e.0, e.1);
      UpdateKeys(Set(d, e.0, e.1), rest);
    }
  }

  /** The keys `d.update(p)` appends are p's keys new to d, in p's order. */
  lemma {:induction false} UpdateKeyOrder(d: Dict, p: Dict)
    ensures Keys(Update(d, p)) == Keys(d) + NewKeys(Keys(p), Keys(d))
    decreases |p|
  {
    if p != [] {
      var k, v, rest := p[0].0, p[0].1, p[1..];
      var d' := Set(d, k, v);
      assert Update(d, p) == Update(d', rest);
      KeysCons(p);
      SetKeys(d, k, v);
      UpdateKeyOrder(d', rest);
      if k in Keys(d) {
        assert NewKeys(Keys(p), Keys(d)) == NewKeys(Keys(rest), Keys(d));
      } else {
        assert NewKeys(Keys(p), Keys(d)) == [k] + NewKeys(Keys(rest), Keys(d'));
        assert Keys(d') + NewKeys(Keys(rest), Keys(d'))
            == Keys(d) + ([k] + NewKeys(Keys(rest), Keys(d')));
      }
    }
  }

  lemma KeysCons(p: Dict)
    requires p != []
    ensures Keys(p) != [] && Keys(p)[0] == p[0].0 && Keys(p)[1..] == Keys(p[1..])
  {
  }

  /** `d.update(p)` keeps a dict a dict. */
  lemma {:induction false} UpdateDict(d: Dict, p: Dict)
    requires IsDict(d)
    ensures IsDict(Update(d, p))
    decreases |p|
  {
    if p != [] {
      SetDict(d, p[0].0, p[0].1);
      UpdateDict(Set(d, p[0].0, p[0].1), p[1..]);
    }
  }
}
