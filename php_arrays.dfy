/**
 * PHP arrays with string keys: an ordered sequence of entries whose keys are
 * distinct. `Put` is `$a[$k] = $v` and `Merge` is `array_merge`, which keeps
 * the position of a key already present and appends the new ones.
 */
module PhpArrays {
  import opened Wrappers

  /** The entries of a string-keyed PHP array, in insertion order. */
  type Entries<V> = seq<(string, V)>

  function Keys<V>(m: Entries<V>): seq<string>
  {
    seq(|m|, i requires 0 <= i < |m| => m[i].0)
  }

  predicate DistinctKeys<V>(m: Entries<V>)
  {
    forall i, j :: 0 <= i < j < |m| ==> m[i].0 != m[j].0
  }

  /** Position of key `k`, if present. */
  function IndexOf<V>(m: Entries<V>, k: string): (r: Option<nat>)
    ensures r.Some? ==> r.value < |m| && m[r.value].0 == k
    ensures r.None? <==> k !in Keys(m)
  {
    if m == [] then None
    else if m[0].0 == k then assert Keys(m)[0] == k; Some(0)
    else
      match IndexOf(m[1..], k)
      case None =>
        assert forall i :: 0 <= i < |m| ==> Keys(m)[i] == if i == 0 then m[0].0 else Keys(m[1..])[i - 1];
        None
      case Some(i) => assert Keys(m)[i + 1] == k; Some(i + 1)
  }

  /** `$m[$k]` for a present key; None when the key is absent. */
  function Get<V>(m: Entries<V>, k: string): Option<V>
  {
    match IndexOf(m, k)
    case None => None
    case Some(i) => Some(m[i].1)
  }

  /** `$m[$k] = $v`: replaces the entry in place when `k` is present, appends it otherwise. */
  function Put<V>(m: Entries<V>, k: string, v: V): Entries<V>
  {
    match IndexOf(m, k)
    case Some(i) => m[i := (k, v)]
    case None => m + [(k, v)]
  }

  /** `array_merge($m, $n)` for string keys: the entries of `n`, in order, put into `m`. */
  function Merge<V>(m: Entries<V>, n: Entries<V>): Entries<V>
    decreases |n|
  {
    if n == [] then m else Merge(Put(m, n[0].0, n[0].1), n[1..])
  }

  /** The keys of `ks` that are not in `seen`, in the order of `ks`. */
  function Unseen(seen: seq<string>, ks: seq<string>): seq<string>
  {
    if ks == [] then [] else (if ks[0] in seen then [] else [ks[0]]) + Unseen(seen, ks[1..])
  }

  lemma GetAt<V>(m: Entries<V>, i: nat)
    requires DistinctKeys(m) && i < |m|
    ensures Get(m, m[i].0) == Some(m[i].1)
  {
    var r := IndexOf(m, m[i].0);
    assert Keys(m)[i] == m[i].0;
  }

  /** What `$m[$k] = $v` does to a well-formed array. */
  lemma PutProperties<V>(m: Entries<V>, k: string, v: V)
    requires DistinctKeys(m)
    ensures DistinctKeys(Put(m, k, v))
    ensures Get(Put(m, k, v), k) == Some(v)
    ensures forall k' :: k' != k ==> Get(Put(m, k, v), k') == Get(m, k')
    ensures k in Keys(m) ==> |Put(m, k, v)| == |m|
    ensures k !in Keys(m) ==> Put(m, k, v) == m + [(k, v)]
    ensures forall i :: 0 <= i < |m| ==> Put(m, k, v)[i].0 == m[i].0
    ensures forall i :: 0 <= i < |m| && m[i].0 != k ==> Put(m, k, v)[i] == m[i]
    ensures Keys(Put(m, k, v)) == Keys(m) + (if k in Keys(m) then [] else [k])
  {
    var p := Put(m, k, v);
    match IndexOf(m, k)
    case Some(i) =>
      assert p == m[i := (k, v)];
      GetAt(p, i);
      forall k' | k' != k
        ensures Get(p, k') == Get(m, k')
      {
        match IndexOf(m, k')
        case None =>
          assert forall j :: 0 <= j < |p| ==> Keys(p)[j] == Keys(m)[j];
        case Some(j) =>
          GetAt(p, j);
      }
    case None =>
      assert p == m + [(k, v)];
      assert forall j :: 0 <= j < |m| ==> m[j].0 == Keys(m)[j];
      GetAt(p, |m|);
      forall k' | k' != k
        ensures Get(p, k') == Get(m, k')
      {
        match IndexOf(m, k')
        case None =>
          assert forall j :: 0 <= j < |p| ==> Keys(p)[j] != k';
        case Some(j) =>
          GetAt(p, j);
      }
  }

  lemma PutKeys<V>(m: Entries<V>, k: string, v: V)
    requires DistinctKeys(m)
    ensures DistinctKeys(Put(m, k, v))
    ensures Keys(Put(m, k, v)) == Keys(m) + (if k in Keys(m) then [] else [k])
  {
    PutProperties(m, k, v);
  }

  lemma {:induction false} UnseenIgnoresAbsent(seen: seq<string>, x: string, ks: seq<string>)
    requires x !in ks
    ensures Unseen(seen + [x], ks) == Unseen(seen, ks)
  {
    if ks != [] {
      UnseenIgnoresAbsent(seen, x, ks[1..]);
    }
  }

  lemma KeysTail<V>(n: Entries<V>)
    requires n != []
    ensures Keys(n) == [n[0].0] + Keys(n[1..])
  {
  }

  lemma {:induction false} KeyNotInTail<V>(n: Entries<V>)
    requires n != [] && DistinctKeys(n)
    ensures n[0].0 !in Keys(n[1..]) && DistinctKeys(n[1..])
  {
    forall j | 0 <= j < |n[1..]| ensures Keys(n[1..])[j] != n[0].0 {
      assert n[1..][j] == n[j + 1];
    }
  }

  lemma {:induction false} MergeDistinct<V>(m: Entries<V>, n: Entries<V>)
    requires DistinctKeys(m)
    ensures DistinctKeys(Merge(m, n))
    decreases |n|
  {
    if n != [] {
      PutProperties(m, n[0].0, n[0].1);
      MergeDistinct(Put(m, n[0].0, n[0].1), n[1..]);
    }
  }

  /** `array_merge`: a key of `n` takes `n`'s value, every other key keeps its value in `m`. */
  lemma {:induction false} MergeGet<V>(m: Entries<V>, n: Entries<V>, k: string)
    requires DistinctKeys(m) && DistinctKeys(n)
    ensures Get(Merge(m, n), k) == if k in Keys(n) then Get(n, k) else Get(m, k)
    decreases |n|
  {
    if n != [] {
      var k0, v0 := n[0].0, n[0].1;
      PutProperties(m, k0, v0);
      KeyNotInTail(n);
      MergeGet(Put(m, k0, v0), n[1..], k);
      KeysTail(n);
      if k == k0 {
        GetAt(n, 0);
      } else if k in Keys(n[1..]) {
        var j :| 0 <= j < |n[1..]| && Keys(n[1..])[j] == k;
        GetAt(n[1..], j);
        GetAt(n, j + 1);
      } else {
        assert k !in Keys(n);
      }
    }
  }

  /** `array_merge`: the keys of `m` stay where they were and the new keys of `n` follow in `n`'s order. */
  lemma {:induction false} MergeKeys<V>(m: Entries<V>, n: Entries<V>)
    requires DistinctKeys(m) && DistinctKeys(n)
    ensures Keys(Merge(m, n)) == Keys(m) + Unseen(Keys(m), Keys(n))
    decreases |n|
  {
    if n != [] {
      var k0, v0 := n[0].0, n[0].1;
      var m1 := Put(m, k0, v0);
      var seen, rest := Keys(m), Keys(n[1..]);
      var added: seq<string> := if k0 in seen then [] else [k0];
      PutKeys(m, k0, v0);
      KeyNotInTail(n);
      MergeKeys(m1, n[1..]);
      UnseenAfterPut(seen, k0, rest);
      KeysTail(n);
      assert Unseen(seen, Keys(n)) == added + Unseen(seen, rest) by {
        UnseenCons(seen, k0, rest);
      }
      assert Merge(m, n) == Merge(m1, n[1..]);
      AppendAssoc(seen, added, Unseen(seen, rest));
    }
  }

  lemma UnseenAfterPut(seen: seq<string>, k: string, rest: seq<string>)
    requires k !in rest
    ensures Unseen(seen + (if k in seen then [] else [k]), rest) == Unseen(seen, rest)
  {
    if k in seen {
      assert seen + [] == seen;
    } else {
      UnseenIgnoresAbsent(seen, k, rest);
    }
  }

  lemma UnseenCons(seen: seq<string>, k: string, rest: seq<string>)
    ensures Unseen(seen, [k] + rest) == (if k in seen then [] else [k]) + Unseen(seen, rest)
  {
    assert ([k] + rest)[0] == k && ([k] + rest)[1..] == rest;
  }

  lemma AppendAssoc<T>(a: seq<T>, b: seq<T>, c: seq<T>)
    ensures (a + b) + c == a + (b + c)
  {
  }

  /** `array_merge`: an entry of `m` whose key `n` does not mention is left exactly where it was. */
  lemma {:induction false} MergeKeepsUntouched<V>(m: Entries<V>, n: Entries<V>, i: nat)
    requires DistinctKeys(m) && i < |m| && m[i].0 !in Keys(n)
    ensures i < |Merge(m, n)| && Merge(m, n)[i] == m[i]
    decreases |n|
  {
    if n != [] {
      var k0, v0 := n[0].0, n[0].1;
      PutProperties(m, k0, v0);
      KeysTail(n);
      assert Keys(n[1..]) == Keys(n)[1..];
      MergeKeepsUntouched(Put(m, k0, v0), n[1..], i);
    }
  }
}
