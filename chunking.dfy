/**
 * Splitting a list into consecutive groups of at most n elements, as
 * `utils.chunks(l, n)` does: `[l[i:i + n] for i in range(0, len(l), n)]`.
 */
module Chunking {

  /** Every group has n elements except the last, which has between 1 and n. */
  ghost predicate WellSized<T>(groups: seq<seq<T>>, n: nat) {
    (forall i :: 0 <= i < |groups| - 1 ==> |groups[i]| == n) &&
    (|groups| > 0 ==> 1 <= |groups[|groups| - 1]| <= n)
  }

  function Chunks<T>(s: seq<T>, n: nat): (groups: seq<seq<T>>)
    requires n > 0
    ensures WellSized(groups, n)
    ensures |groups| == 0 <==> |s| == 0
    decreases |s|
  {
    if |s| == 0 then []
    else if |s| <= n then [s]
    else [s[..n]] + Chunks(s[n..], n)
  }

  /** The groups laid end to end. */
  function Flatten<T>(groups: seq<seq<T>>): seq<T> {
    if groups == [] then [] else groups[0] + Flatten(groups[1..])
  }

  /** Concatenating the groups in order gives back the list. */
  lemma {:induction false} ChunksFlatten<T>(s: seq<T>, n: nat)
    requires n > 0
    ensures Flatten(Chunks(s, n)) == s
    decreases |s|
  {
    if |s| > n {
      var groups := Chunks(s, n);
      assert groups[1..] == Chunks(s[n..], n);
      ChunksFlatten(s[n..], n);
      assert s == s[..n] + s[n..];
    }
  }

  /** There are ceil(|s| / n) groups. */
  lemma {:induction false} ChunksCount<T>(s: seq<T>, n: nat)
    requires n > 0
    ensures |Chunks(s, n)| == (|s| + n - 1) / n
    decreases |s|
  {
    if |s| > n {
      ChunksCount(s[n..], n);
      assert (|s| + n - 1) / n == (|s[n..]| + n - 1) / n + 1 by {
        DivShift(|s[n..]| + n - 1, n);
      }
    } else if |s| > 0 {
      assert (|s| + n - 1) / n == 1 by {
        assert n <= |s| + n - 1 < 2 * n;
      }
    }
  }

  /** Adding n to the dividend adds one to the quotient. */
  lemma DivShift(a: nat, n: nat)
    requires n > 0
    ensures (a + n) / n == a / n + 1
  {
    var q, r := a / n, a % n;
    assert a + n == (q + 1) * n + r;
    DivUnique(a + n, n, q + 1, r);
  }

  lemma DivUnique(x: nat, n: nat, q: nat, r: nat)
    requires n > 0 && r < n && x == q * n + r
    ensures x / n == q
  {
    var q', r' := x / n, x % n;
    if q' < q {
      MulDistrib(q', q - q', n);
      MulAtLeast(q - q', n);
    } else if q' > q {
      MulDistrib(q, q' - q, n);
      MulAtLeast(q' - q, n);
    }
  }

  lemma MulDistrib(a: nat, b: nat, n: nat)
    ensures (a + b) * n == a * n + b * n
  {
  }

  lemma MulAtLeast(k: nat, n: nat)
    requires k >= 1
    ensures k * n >= n
  {
  }
}
