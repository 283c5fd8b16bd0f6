/**
  `aiomisc.chunk_list`, stated by its contract: it cuts a stream into
  consecutive, order-preserving groups of at most `n` elements, each full
  except possibly the last.
 */
module Chunking {

  /** The concatenation of the groups, in order. */
  function Flatten<T>(groups: seq<seq<T>>): seq<T>
  {
    if groups == [] then [] else groups[0] + Flatten(groups[1..])
  }

  lemma {:induction false} FlattenAppend<T>(a: seq<seq<T>>, b: seq<seq<T>>)
    ensures Flatten(a + b) == Flatten(a) + Flatten(b)
    decreases |a|
  {
    if a == [] {
      assert a + b == b;
    } else {
      assert (a + b)[0] == a[0] && (a + b)[1..] == a[1..] + b;
      FlattenAppend(a[1..], b);
    }
  }

  /** Flattening the first `i + 1` groups adds the `i`-th group to the first `i`. */
  lemma FlattenPrefixStep<T>(groups: seq<seq<T>>, i: nat)
    requires i < |groups|
    ensures Flatten(groups[..i + 1]) == Flatten(groups[..i]) + groups[i]
  {
    assert groups[..i + 1] == groups[..i] + [groups[i]];
    FlattenAppend(groups[..i], [groups[i]]);
    assert Flatten([groups[i]]) == groups[i] + Flatten([groups[i]][1..]);
  }

  /** The groups `chunk_list(s, n)` yields. */
  function Chunks<T>(s: seq<T>, n: nat): (groups: seq<seq<T>>)
    requires n >= 1
    ensures Flatten(groups) == s
    ensures forall i :: 0 <= i < |groups| ==> 1 <= |groups[i]| <= n
    ensures forall i :: 0 <= i < |groups| - 1 ==> |groups[i]| == n
    decreases |s|
  {
    if s == [] then []
    else if |s| <= n then [s]
    else [s[..n]] + Chunks(s[n..], n)
  }

  /**
    All but the last group are full, so there are `ceil(|s| / n)` groups: the
    smallest count whose capacity covers the stream.
   */
  lemma {:induction false} ChunkCount<T>(s: seq<T>, n: nat)
    requires n >= 1
    ensures var count := |Chunks(s, n)|;
      (count - 1) * n < |s| <= count * n
    decreases |s|
  {
    if |s| > n {
      var c := |Chunks(s[n..], n)|;
      ChunkCount(s[n..], n);
      assert |Chunks(s, n)| == c + 1;
      MulSucc(c - 1, n);
      MulSucc(c, n);
    }
  }

  lemma MulSucc(a: int, n: int)
    ensures (a + 1) * n == a * n + n
  {
  }

  /** The last group holds what the full groups before it leave over. */
  lemma LastChunkSize<T>(s: seq<T>, n: nat)
    requires n >= 1 && s != []
    ensures var groups := Chunks(s, n);
      |groups[|groups| - 1]| == |s| - (|groups| - 1) * n
  {
    var groups := Chunks(s, n);
    var k := |groups| - 1;
    assert groups == groups[..k] + [groups[k]];
    FlattenAppend(groups[..k], [groups[k]]);
    assert Flatten([groups[k]]) == groups[k] + Flatten([groups[k]][1..]);
    FullGroupsLength(groups[..k], n);
  }

  lemma {:induction false} FullGroupsLength<T>(groups: seq<seq<T>>, n: nat)
    requires forall i :: 0 <= i < |groups| ==> |groups[i]| == n
    ensures |Flatten(groups)| == |groups| * n
    decreases |groups|
  {
    if groups != [] {
      FullGroupsLength(groups[1..], n);
      assert |groups| * n == n + (|groups| - 1) * n;
    }
  }
}
