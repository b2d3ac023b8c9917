/**
 * The bounded rolling logs of the dashboard. Two shapes occur:
 *  - newest first: `[x, ...prev.slice(0, cap - 1)]` (reports, shrine log,
 *    agent communications, agent chatter);
 *  - newest last: `[...prev, x].slice(-cap)` (DevTools console, terminal).
 */
module RollingLog {

  function Min(a: int, b: int): int {
    if a <= b then a else b
  }

  /** `[x, ...s.slice(0, cap - 1)]`: `x` in front, then the first entries of `s`, at most `cap` in all. */
  function PushFront<T>(x: T, s: seq<T>, cap: nat): (r: seq<T>)
    requires cap >= 1
    ensures |r| == Min(|s| + 1, cap)
    ensures r[0] == x
    ensures forall i :: 1 <= i < |r| ==> r[i] == s[i - 1]
  {
    [x] + s[..Min(|s|, cap - 1)]
  }

  /** `s.slice(-n)` for a positive `n`: the last `n` entries, or all of `s` when it is shorter. */
  function KeepLast<T>(s: seq<T>, n: nat): (r: seq<T>)
    ensures |r| == Min(|s|, n)
    ensures r == s[|s| - |r|..]
  {
    if |s| <= n then s else s[|s| - n..]
  }

  /** `[...s, x].slice(-cap)`: `x` last, preceded by the most recent entries of `s`, at most `cap` in all. */
  function PushBack<T>(s: seq<T>, x: T, cap: nat): seq<T>
    requires cap >= 1
  {
    KeepLast(s + [x], cap)
  }

  /** After a back push the log has `x` last, after the newest `cap - 1` entries of `s` in their order. */
  lemma PushBackContents<T>(s: seq<T>, x: T, cap: nat)
    requires cap >= 1
    ensures var r := PushBack(s, x, cap);
      && |r| == Min(|s| + 1, cap)
      && r[|r| - 1] == x
      && r[..|r| - 1] == s[|s| - (|r| - 1)..]
  {
    var r := PushBack(s, x, cap);
    assert r == (s + [x])[|s| + 1 - |r|..];
    assert r[..|r| - 1] == (s + [x])[|s| + 1 - |r|..|s|];
  }

  /** Pushing each of `xs` in front, in order. */
  function PushFrontAll<T>(s: seq<T>, xs: seq<T>, cap: nat): seq<T>
    requires cap >= 1
    decreases |xs|
  {
    if xs == [] then s else PushFrontAll(PushFront(xs[0], s, cap), xs[1..], cap)
  }

  /** Pushing each of `xs` at the back, in order. */
  function PushBackAll<T>(s: seq<T>, xs: seq<T>, cap: nat): seq<T>
    requires cap >= 1
    decreases |xs|
  {
    if xs == [] then s else PushBackAll(PushBack(s, xs[0], cap), xs[1..], cap)
  }

  function Reversed<T>(xs: seq<T>): (r: seq<T>)
    ensures |r| == |xs|
  {
    if xs == [] then [] else Reversed(xs[1..]) + [xs[0]]
  }

  lemma PrefixOfTruncated<T>(a: seq<T>, b: seq<T>, k: nat, m: nat)
    requires k <= |b| && m <= |a| + k
    ensures (a + b[..k])[..m] == (a + b)[..m]
  {
    assert forall i :: 0 <= i < m ==> (a + b[..k])[i] == (a + b)[i];
  }

  /**
   * A run of front pushes onto a log that respects its cap holds the pushed
   * entries newest first, then the old log, cut to the cap: the log never
   * grows beyond `cap`, and it loses only its oldest entries.
   */
  lemma {:induction false} PushFrontAllContents<T>(s: seq<T>, xs: seq<T>, cap: nat)
    requires cap >= 1 && |s| <= cap
    ensures PushFrontAll(s, xs, cap) == (Reversed(xs) + s)[..Min(|xs| + |s|, cap)]
    ensures |PushFrontAll(s, xs, cap)| == Min(|xs| + |s|, cap) <= cap
    decreases |xs|
  {
    if xs == [] {
      assert (Reversed(xs) + s)[..Min(|xs| + |s|, cap)] == s;
    } else {
      var x, rest := xs[0], xs[1..];
      var u := [x] + s;
      var k := Min(|u|, cap);
      var t := PushFront(x, s, cap);
      assert t == u[..k];
      PushFrontAllContents(t, rest, cap);
      assert Reversed(xs) == Reversed(rest) + [x];
      assert Reversed(xs) + s == Reversed(rest) + u;
      var m := Min(|xs| + |s|, cap);
      assert Min(|rest| + |t|, cap) == m;
      PrefixOfTruncated(Reversed(rest), u, k, m);
    }
  }

  /** Keeping the last `n` twice, with entries added in between, is keeping the last `n` once. */
  lemma KeepLastAbsorbs<T>(t: seq<T>, u: seq<T>, n: nat)
    ensures KeepLast(KeepLast(t, n) + u, n) == KeepLast(t + u, n)
  {
    var l := KeepLast(t, n);
    var r1, r2 := KeepLast(l + u, n), KeepLast(t + u, n);
    assert |r1| == |r2|;
    assert forall i :: 0 <= i < |r1| ==> r1[i] == r2[i] by {
      forall i | 0 <= i < |r1| ensures r1[i] == r2[i] {
        var j := |l + u| - |r1| + i;
        if j < |l| {
          assert r1[i] == l[j] == t[|t| - |l| + j];
        } else {
          assert r1[i] == u[j - |l|];
        }
      }
    }
  }

  /**
   * A run of back pushes onto a log that respects its cap holds the last
   * `cap` entries of the old log followed by the pushed ones.
   */
  lemma {:induction false} PushBackAllContents<T>(s: seq<T>, xs: seq<T>, cap: nat)
    requires cap >= 1 && |s| <= cap
    ensures PushBackAll(s, xs, cap) == KeepLast(s + xs, cap)
    decreases |xs|
  {
    if xs == [] {
      assert s + xs == s;
    } else {
      var x, rest := xs[0], xs[1..];
      var t := KeepLast(s + [x], cap);
      assert PushBackAll(s, xs, cap) == PushBackAll(t, rest, cap);
      PushBackAllContents(t, rest, cap);
      KeepLastAbsorbs(s + [x], rest, cap);
      assert s + [x] + rest == s + xs;
    }
  }
}
