/** A dictionary that lists its entries in insertion order. */
module Dict {
  import opened Wrappers

  datatype Dict<K, V> = Dict(data: map<K, V>, order: seq<K>)

  function Empty<K, V>(): Dict<K, V> {
    Dict(map[], [])
  }

  ghost predicate NoDuplicates<K>(order: seq<K>) {
    forall i, j :: 0 <= i < j < |order| ==> order[i] != order[j]
  }

  ghost predicate Valid<K, V>(d: Dict<K, V>) {
    && NoDuplicates(d.order)
    && (forall k :: k in d.order ==> k in d.data)
    && (forall k :: k in d.data ==> k in d.order)
  }

  /** Storing under a present key keeps its place. */
  function Put<K(==), V>(d: Dict<K, V>, k: K, v: V): Dict<K, V> {
    Dict(d.data[k := v], if k in d.data then d.order else d.order + [k])
  }

  function Without<K(==)>(order: seq<K>, k: K): seq<K> {
    if order == [] then []
    else if order[0] == k then Without(order[1..], k)
    else [order[0]] + Without(order[1..], k)
  }

  function Remove<K(==), V>(d: Dict<K, V>, k: K): Dict<K, V> {
    Dict(d.data - {k}, Without(d.order, k))
  }

  /** The stored values that pass a test, in order. */
  function Pick<K, V>(d: Dict<K, V>, order: seq<K>, test: V -> bool): seq<V> {
    if order == [] then []
    else
      var rest := Pick(d, order[1..], test);
      if order[0] in d.data && test(d.data[order[0]]) then [d.data[order[0]]] + rest else rest
  }

  function Select<K, V>(d: Dict<K, V>, test: V -> bool): seq<V> {
    Pick(d, d.order, test)
  }

  /** next((v for v in values if test(v)), None) */
  function First<K, V>(d: Dict<K, V>, test: V -> bool): Option<V> {
    var found := Select(d, test);
    if found == [] then None else Some(found[0])
  }

  lemma PutValid<K, V>(d: Dict<K, V>, k: K, v: V)
    requires Valid(d)
    ensures Valid(Put(d, k, v))
  {
  }

  lemma {:induction false} WithoutMember<K>(order: seq<K>, k: K, x: K)
    ensures x in Without(order, k) <==> x in order && x != k
  {
    if order != [] {
      WithoutMember(order[1..], k, x);
      assert order == [order[0]] + order[1..];
    }
  }

  lemma {:induction false} WithoutNoDuplicates<K>(order: seq<K>, k: K)
    requires NoDuplicates(order)
    ensures NoDuplicates(Without(order, k))
  {
    if order != [] {
      WithoutNoDuplicates(order[1..], k);
      WithoutMember(order[1..], k, order[0]);
    }
  }

  lemma RemoveValid<K, V>(d: Dict<K, V>, k: K)
    requires Valid(d)
    ensures Valid(Remove(d, k))
  {
    WithoutNoDuplicates(d.order, k);
    forall x | x in Remove(d, k).order ensures x in Remove(d, k).data { WithoutMember(d.order, k, x); }
    forall x | x in Remove(d, k).data ensures x in Remove(d, k).order { WithoutMember(d.order, k, x); }
  }

  /** Each value picked is a stored value passing the test, at a key of its own. */
  lemma {:induction false} PickMembers<K, V>(d: Dict<K, V>, order: seq<K>, test: V -> bool, v: V)
    ensures v in Pick(d, order, test) <==> exists k :: k in order && k in d.data && d.data[k] == v && test(v)
  {
    if order != [] {
      PickMembers(d, order[1..], test, v);
      assert order == [order[0]] + order[1..];
    }
  }

  lemma SelectMembers<K, V>(d: Dict<K, V>, test: V -> bool, v: V)
    requires Valid(d)
    ensures v in Select(d, test) <==> exists k :: k in d.data && d.data[k] == v && test(v)
  {
    PickMembers(d, d.order, test, v);
  }

  /** The values picked stand at distinct keys. */
  lemma {:induction false} PickKeys<K, V>(d: Dict<K, V>, order: seq<K>, test: V -> bool) returns (keys: seq<K>)
    requires NoDuplicates(order)
    ensures NoDuplicates(keys) && |keys| == |Pick(d, order, test)|
    ensures forall i :: 0 <= i < |keys| ==>
              keys[i] in order && keys[i] in d.data && d.data[keys[i]] == Pick(d, order, test)[i]
  {
    if order == [] {
      keys := [];
    } else {
      keys := PickKeys(d, order[1..], test);
      assert order == [order[0]] + order[1..];
      if order[0] in d.data && test(d.data[order[0]]) {
        keys := [order[0]] + keys;
      }
    }
  }

  /** A value that is alone in passing the test is the one found. */
  lemma FirstIsOnly<K, V>(d: Dict<K, V>, test: V -> bool, k: K)
    requires Valid(d) && k in d.data && test(d.data[k])
    requires forall j :: j in d.data && test(d.data[j]) ==> d.data[j] == d.data[k]
    ensures First(d, test) == Some(d.data[k])
  {
    var found := Select(d, test);
    SelectMembers(d, test, d.data[k]);
    assert found != [];
    SelectMembers(d, test, found[0]);
  }

  lemma FirstNone<K, V>(d: Dict<K, V>, test: V -> bool)
    requires Valid(d)
    ensures First(d, test).None? <==> forall k :: k in d.data ==> !test(d.data[k])
    ensures First(d, test).Some? ==> exists k :: k in d.data && d.data[k] == First(d, test).value && test(d.data[k])
  {
    var found := Select(d, test);
    if found != [] { SelectMembers(d, test, found[0]); }
    forall k | k in d.data && test(d.data[k]) ensures found != [] { SelectMembers(d, test, d.data[k]); }
  }

  predicate Hit<K, V>(d: Dict<K, V>, order: seq<K>, test: V -> bool, n: nat) {
    n < |order| && order[n] in d.data && test(d.data[order[n]])
  }

  /** The positions that hold a value passing the test, each once, ascending. */
  ghost predicate Hits<K, V>(d: Dict<K, V>, order: seq<K>, test: V -> bool, at: seq<nat>) {
    && (forall i, j :: 0 <= i < j < |at| ==> at[i] < at[j])
    && (forall n: nat :: n in at <==> Hit(d, order, test, n))
  }

  function Shifted(at: seq<nat>): (later: seq<nat>)
    ensures |later| == |at| && forall i :: 0 <= i < |at| ==> later[i] == at[i] + 1
  {
    if at == [] then [] else [at[0] + 1] + Shifted(at[1..])
  }

  lemma ShiftedMembers(at: seq<nat>, n: nat)
    ensures n in Shifted(at) <==> n > 0 && n - 1 in at
  {
    if n > 0 && n - 1 in at {
      var i :| 0 <= i < |at| && at[i] == n - 1;
      assert Shifted(at)[i] == n;
    }
  }

  lemma HitsShift<K, V>(d: Dict<K, V>, order: seq<K>, test: V -> bool, rest: seq<nat>, at: seq<nat>)
    requires order != [] && Hits(d, order[1..], test, rest)
    requires at == if Hit(d, order, test, 0) then [0] + Shifted(rest) else Shifted(rest)
    ensures Hits(d, order, test, at)
  {
    forall n: nat ensures n in at <==> Hit(d, order, test, n) {
      ShiftedMembers(rest, n);
      if n > 0 {
        assert n - 1 in rest <==> Hit(d, order[1..], test, n - 1);
        assert n < |order| ==> order[1..][n - 1] == order[n];
      }
    }
  }

  /** The values picked are those that pass the test, all of them, in the order they stand. */
  lemma {:induction false} PicksInOrder<K, V>(d: Dict<K, V>, order: seq<K>, test: V -> bool) returns (at: seq<nat>)
    ensures Hits(d, order, test, at) && |at| == |Pick(d, order, test)|
    ensures forall i :: 0 <= i < |at| ==> Hit(d, order, test, at[i]) && d.data[order[at[i]]] == Pick(d, order, test)[i]
  {
    if order == [] {
      at := [];
    } else {
      var rest := PicksInOrder(d, order[1..], test);
      at := if Hit(d, order, test, 0) then [0] + Shifted(rest) else Shifted(rest);
      HitsShift(d, order, test, rest, at);
      forall i | 0 <= i < |at| ensures Hit(d, order, test, at[i]) && d.data[order[at[i]]] == Pick(d, order, test)[i] {
        assert at[i] in at;
        hide Hits, Hit;
      }
    }
  }

  /** What is found stands before everything else that passes the test. */
  lemma FirstComesFirst<K, V>(d: Dict<K, V>, test: V -> bool, n: nat)
    requires n < |d.order| && d.order[n] in d.data && test(d.data[d.order[n]])
    requires forall m :: 0 <= m < n && d.order[m] in d.data ==> !test(d.data[d.order[m]])
    ensures First(d, test) == Some(d.data[d.order[n]])
  {
    var at := PicksInOrder(d, d.order, test);
    assert Hit(d, d.order, test, n) && n in at;
    assert at[0] <= n;
  }
}
