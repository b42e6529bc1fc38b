/** The JavaScript array operations the orchestration agent relies on, on sequences. */
module ArrayOps {

  /** `Array.prototype.findIndex`: the first index whose element satisfies `p`, or -1. */
  function FindIndex<T>(s: seq<T>, p: T -> bool): (r: int)
    ensures -1 <= r < |s|
    ensures r == -1 <==> forall i :: 0 <= i < |s| ==> !p(s[i])
    ensures 0 <= r ==> p(s[r]) && forall i :: 0 <= i < r ==> !p(s[i])
  {
    if |s| == 0 then -1
    else if p(s[0]) then 0
    else
      var k := FindIndex(s[1..], p);
      assert forall i :: 1 <= i < |s| ==> s[i] == s[1..][i - 1];
      if k == -1 then -1 else k + 1
  }

  /** `splice(i, 1)`: the element at `i` is removed and the others keep their order. */
  function RemoveAt<T>(s: seq<T>, i: int): (r: seq<T>)
    requires 0 <= i < |s|
    ensures |r| == |s| - 1
    ensures forall j :: 0 <= j < i ==> r[j] == s[j]
    ensures forall j :: i <= j < |r| ==> r[j] == s[j + 1]
  {
    s[..i] + s[i + 1..]
  }

  /**
   * `push(x)` followed by a single `shift()` when the length then exceeds `cap`:
   * the result is the newest part of `s + [x]`, ending with `x`, and the cap is kept.
   */
  function PushCapped<T>(s: seq<T>, x: T, cap: nat): (r: seq<T>)
    requires 0 < cap
    ensures |s| <= cap ==> |r| <= cap
    ensures 0 < |r| <= |s| + 1 && r[|r| - 1] == x
    ensures |s| >= cap ==> r == s[1..] + [x]
    ensures |s| < cap ==> r == s + [x]
    ensures |s| >= cap ==> |r| == |s|
  {
    var t := s + [x];
    if |t| > cap then t[1..] else t
  }

  /** The last `n` elements of `t` (all of `t` when it is no longer than `n`). */
  function Newest<T>(t: seq<T>, n: nat): (r: seq<T>)
    ensures |r| == if |t| <= n then |t| else n
  {
    if |t| <= n then t else t[|t| - n..]
  }

  /** `PushCapped` applied to each element of `xs` in turn. */
  function PushAllCapped<T>(s: seq<T>, xs: seq<T>, cap: nat): seq<T>
    requires 0 < cap
    decreases |xs|
  {
    if xs == [] then s else PushCapped(PushAllCapped(s, xs[..|xs| - 1], cap), xs[|xs| - 1], cap)
  }

  /** One capped push below or at the cap keeps exactly the newest `cap` elements. */
  lemma PushCappedIsNewest<T>(s: seq<T>, x: T, cap: nat)
    requires 0 < cap && |s| <= cap
    ensures PushCapped(s, x, cap) == Newest(s + [x], cap)
  {
  }

  /** Taking the newest `n` twice, with more elements appended in between, loses nothing. */
  lemma NewestOfNewest<T>(t: seq<T>, u: seq<T>, n: nat)
    ensures Newest(Newest(t, n) + u, n) == Newest(t + u, n)
  {
    var a := Newest(t, n);
    var lhs := Newest(a + u, n);
    var rhs := Newest(t + u, n);
    assert |lhs| == |rhs|;
    forall k | 0 <= k < |lhs|
      ensures lhs[k] == rhs[k]
    {
      var j := |a + u| - |lhs| + k;
      if j < |a| {
        assert lhs[k] == a[j] == t[|t| - |a| + j];
      } else {
        assert lhs[k] == u[j - |a|];
      }
    }
  }

  /**
   * A FIFO with cap `cap`: after any number of capped pushes, starting at or below the cap,
   * the sequence holds exactly the newest `cap` elements of everything pushed, oldest first.
   */
  lemma {:induction false} PushAllKeepsNewest<T>(s: seq<T>, xs: seq<T>, cap: nat)
    requires 0 < cap && |s| <= cap
    ensures PushAllCapped(s, xs, cap) == Newest(s + xs, cap)
    decreases |xs|
  {
    if xs != [] {
      var init, x := xs[..|xs| - 1], xs[|xs| - 1];
      assert xs == init + [x];
      assert s + xs == (s + init) + [x];
      PushAllKeepsNewest(s, init, cap);
      PushCappedIsNewest(Newest(s + init, cap), x, cap);
      NewestOfNewest(s + init, [x], cap);
    }
  }

  /** Once at least `cap` elements have been pushed, the FIFO is full. */
  lemma PushAllFills<T>(s: seq<T>, xs: seq<T>, cap: nat)
    requires 0 < cap && |s| <= cap && |s| + |xs| >= cap
    ensures |PushAllCapped(s, xs, cap)| == cap
  {
    PushAllKeepsNewest(s, xs, cap);
  }

  /** `[...s].reverse()`: element `k` of the result is element `|s| - 1 - k` of `s`. */
  function Reverse<T>(s: seq<T>): (r: seq<T>)
    ensures |r| == |s|
    ensures forall k :: 0 <= k < |s| ==> r[k] == s[|s| - 1 - k]
  {
    if s == [] then [] else Reverse(s[1..]) + [s[0]]
  }

  /** Reversing is its own inverse. */
  lemma ReverseReverse<T>(s: seq<T>)
    ensures Reverse(Reverse(s)) == s
  {
  }
}
