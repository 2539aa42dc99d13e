/** The in-memory registries of the service (`genome_jobs`, `chat_sessions`)
    are Python dicts keyed by string ids. Iteration order is insertion order,
    and the chat-context lookup depends on it, so a registry keeps its keys in
    that order beside the key-to-value map. */
module Registry {

  import opened Wrappers

  /** Keys in insertion order, and the entry for each key. */
  datatype Store<V> = Store(order: seq<string>, entries: map<string, V>)

  predicate Distinct(s: seq<string>) {
    forall i, j | 0 <= i < j < |s| :: s[i] != s[j]
  }

  /** Every key is listed exactly once in the order, and nothing else is. */
  predicate Valid<V>(r: Store<V>) {
    && Distinct(r.order)
    && (forall k | k in r.order :: k in r.entries)
    && (forall k | k in r.entries :: k in r.order)
  }

  type Registry<V> = r: Store<V> | Valid(r) witness Store([], map[])

  /** The empty dict `{}`. */
  function Empty<V>(): (r: Registry<V>)
    ensures |r.entries| == 0 && |r.order| == 0
  {
    Store([], map[])
  }

  /** `s` with every occurrence of `k` dropped, keeping the order of the rest. */
  function Without(s: seq<string>, k: string): (r: seq<string>)
    ensures forall x :: x in r <==> x in s && x != k
    ensures Distinct(s) ==> Distinct(r)
    ensures k !in s ==> r == s
    decreases |s|
  {
    if |s| == 0 then []
    else if s[0] == k then Without(s[1..], k)
    else
      DistinctTail(s);
      var r := [s[0]] + Without(s[1..], k);
      assert forall i | 0 < i < |r| :: r[i] == Without(s[1..], k)[i - 1];
      r
  }

  /** Dropping the head of a sequence without repetitions leaves one without
      repetitions that no longer holds the head. */
  lemma DistinctTail(s: seq<string>)
    requires |s| > 0
    ensures Distinct(s) ==> Distinct(s[1..]) && s[0] !in s[1..]
  {
    if Distinct(s) {
      var rest := s[1..];
      forall i, j | 0 <= i < j < |rest| ensures rest[i] != rest[j] {
        assert rest[i] == s[i + 1] && rest[j] == s[j + 1];
      }
      forall i | 0 <= i < |rest| ensures rest[i] != s[0] {
        assert rest[i] == s[i + 1];
      }
    }
  }

  /** `d[k] = v`: an existing key keeps its place in the iteration order, a new
      key goes last; every other entry is untouched. */
  function Put<V>(r: Registry<V>, k: string, v: V): (r': Registry<V>)
    ensures r'.entries == r.entries[k := v]
    ensures k in r.entries ==> r'.order == r.order
    ensures k !in r.entries ==> r'.order == r.order + [k]
    ensures r'.entries.Keys == r.entries.Keys + {k}
    ensures |r'.entries| == |r.entries| + (if k in r.entries then 0 else 1)
  {
    if k in r.entries then Store(r.order, r.entries[k := v])
    else Store(r.order + [k], r.entries[k := v])
  }

  /** The elements at `i` and `j` of `r` (`i` before `j`) occur in `s` in
      that order. */
  ghost predicate OccurInOrder(r: seq<string>, i: int, j: int, s: seq<string>) {
    0 <= i < j < |r| && exists p, q | 0 <= p < q < |s| :: s[p] == r[i] && s[q] == r[j]
  }

  /** Every two elements of `r` appear in `s` in the same relative order. */
  ghost predicate InOrder(r: seq<string>, s: seq<string>) {
    forall i, j | 0 <= i < j < |r| :: OccurInOrder(r, i, j, s)
  }

  /** Putting an element in front of the wider sequence keeps the order. */
  lemma ExtendInOrder(r: seq<string>, s: seq<string>, x: string)
    requires InOrder(r, s)
    ensures InOrder(r, [x] + s)
  {
    var s' := [x] + s;
    forall i, j | 0 <= i < j < |r| ensures OccurInOrder(r, i, j, s') {
      assert OccurInOrder(r, i, j, s);
      var p, q :| 0 <= p < q < |s| && s[p] == r[i] && s[q] == r[j];
      assert s'[p + 1] == r[i] && s'[q + 1] == r[j];
    }
    assert InOrder(r, s');
  }

  /** Putting the same element in front of both sequences keeps the order. */
  lemma ConsInOrder(r: seq<string>, s: seq<string>, x: string)
    requires InOrder(r, s)
    requires forall y :: y in r ==> y in s
    ensures InOrder([x] + r, [x] + s)
  {
    var r', s' := [x] + r, [x] + s;
    forall i, j | 0 <= i < j < |r'| ensures OccurInOrder(r', i, j, s') {
      if i == 0 {
        assert r'[j] == r[j - 1] && r[j - 1] in r;
        var q :| 0 <= q < |s| && s[q] == r'[j];
        assert s'[0] == r'[0] && s'[q + 1] == r'[j];
      } else {
        assert r'[i] == r[i - 1] && r'[j] == r[j - 1];
        assert OccurInOrder(r, i - 1, j - 1, s);
        var p, q :| 0 <= p < q < |s| && s[p] == r[i - 1] && s[q] == r[j - 1];
        assert s'[p + 1] == r'[i] && s'[q + 1] == r'[j];
      }
    }
    assert InOrder(r', s');
  }

  /** Dropping a key keeps the relative order of the others. */
  lemma {:induction false} WithoutInOrder(s: seq<string>, k: string)
    ensures InOrder(Without(s, k), s)
    decreases |s|
  {
    if |s| > 0 {
      var rest := s[1..];
      WithoutInOrder(rest, k);
      assert s == [s[0]] + rest;
      if s[0] == k {
        ExtendInOrder(Without(rest, k), rest, s[0]);
      } else {
        ConsInOrder(Without(rest, k), rest, s[0]);
      }
    }
  }

  /** `del d[k]`: the key leaves both the map and the iteration order, every
      other key stays, and the remaining keys keep their relative order. */
  function Remove<V>(r: Registry<V>, k: string): (r': Registry<V>)
    ensures r'.entries == r.entries - {k}
    ensures forall x :: x in r'.order <==> x in r.order && x != k
    ensures |r'.order| == |r.order| - (if k in r.entries then 1 else 0)
  {
    var order := Without(r.order, k);
    OrderLength(r);
    OrderLength(Store(order, r.entries - {k}));
    Store(order, r.entries - {k})
  }

  /** `Remove` keeps the iteration order of the keys that are left. */
  lemma RemoveKeepsOrder<V>(r: Registry<V>, k: string)
    ensures InOrder(Remove(r, k).order, r.order)
  {
    WithoutInOrder(r.order, k);
  }

  /** A sequence without repetitions has as many elements as its set. */
  lemma {:induction false} DistinctCardinality(s: seq<string>)
    requires Distinct(s)
    ensures |set x | x in s| == |s|
    decreases |s|
  {
    if |s| > 0 {
      var rest := s[1..];
      DistinctTail(s);
      DistinctCardinality(rest);
      assert (set x | x in s) == (set x | x in rest) + {s[0]};
    }
  }

  /** `len(d)` equals the number of keys the iteration visits. */
  lemma OrderLength<V>(r: Registry<V>)
    ensures |r.order| == |r.entries|
  {
    DistinctCardinality(r.order);
    assert (set x | x in r.order) == r.entries.Keys;
  }
}
