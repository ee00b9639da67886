/** The heap algorithms of the standard library ([alg.heap.operations] of ISO/IEC 14882), in place
    on the first `n` elements of an array, for the comparison of the delivery queue: the smallest
    key is in front. */
module HeapOps {
  import opened Messages

  function Parent(i: nat): nat
    requires i > 0
  {
    (i - 1) / 2
  }

  /** No element with index `lo` or more comes out after one of its children. */
  ghost predicate HeapFrom(s: seq<QueuedMessage>, lo: nat) {
    forall j :: 0 < j < |s| && lo <= Parent(j) ==> !Cmp(s[Parent(j)], s[j])
  }

  ghost predicate IsHeap(s: seq<QueuedMessage>) {
    HeapFrom(s, 0)
  }

  /** The front of a heap is a smallest element. */
  lemma {:induction false} FrontIsSmallest(s: seq<QueuedMessage>, i: nat)
    requires IsHeap(s) && i < |s|
    ensures !Cmp(s[0], s[i])
  {
    if i > 0 { FrontIsSmallest(s, Parent(i)); }
  }

  // ---------- one step of sifting, on sequences ----------

  function Swapped(s: seq<QueuedMessage>, i: nat, j: nat): seq<QueuedMessage>
    requires i < |s| && j < |s|
  {
    s[i := s[j]][j := s[i]]
  }

  lemma SwappedSame(s: seq<QueuedMessage>, i: nat, j: nat)
    requires i < |s| && j < |s|
    ensures multiset(Swapped(s, i, j)) == multiset(s)
  {
  }

  /** A heap but for the edge above `i`: everything else is in order, across `i` too. */
  ghost predicate RisingAt(s: seq<QueuedMessage>, i: nat) {
    && i < |s|
    && (forall j :: 0 < j < |s| && j != i ==> !Cmp(s[Parent(j)], s[j]))
    && (forall j :: 0 < j < |s| && i > 0 && Parent(j) == i ==> !Cmp(s[Parent(i)], s[j]))
  }

  lemma RiseOne(s: seq<QueuedMessage>, i: nat)
    requires RisingAt(s, i) && i > 0 && Cmp(s[Parent(i)], s[i])
    ensures RisingAt(Swapped(s, i, Parent(i)), Parent(i))
  {
    var p := Parent(i);
    var t := Swapped(s, i, p);
    forall j | 0 < j < |t| && j != p ensures !Cmp(t[Parent(j)], t[j]) {
      if j != i && Parent(j) == p { assert !Cmp(s[p], s[j]); }
    }
    forall j | 0 < j < |t| && p > 0 && Parent(j) == p ensures !Cmp(t[Parent(p)], t[j]) {
      assert !Cmp(s[Parent(p)], s[p]);
      if j != i { assert !Cmp(s[p], s[j]); }
    }
  }

  /** A heap from `lo` on but for the edges below `i`. */
  ghost predicate SinkingAt(s: seq<QueuedMessage>, lo: nat, i: nat) {
    && lo <= i < |s|
    && (forall j :: 0 < j < |s| && lo <= Parent(j) != i ==> !Cmp(s[Parent(j)], s[j]))
    && (forall j :: 0 < j < |s| && i > lo && lo <= Parent(i) && Parent(j) == i ==> !Cmp(s[Parent(i)], s[j]))
  }

  lemma SinkOne(s: seq<QueuedMessage>, lo: nat, i: nat, c: nat)
    requires SinkingAt(s, lo, i) && 0 < c < |s| && Parent(c) == i && Cmp(s[i], s[c])
    requires forall j :: 0 < j < |s| && Parent(j) == i ==> !Cmp(s[c], s[j])
    ensures SinkingAt(Swapped(s, i, c), lo, c)
  {
    var t := Swapped(s, i, c);
    forall j | 0 < j < |t| && lo <= Parent(j) != c ensures !Cmp(t[Parent(j)], t[j]) {
      if j == i { assert !Cmp(s[Parent(i)], s[c]); }
    }
    forall j | 0 < j < |t| && lo <= Parent(c) && Parent(j) == c ensures !Cmp(t[Parent(c)], t[j]) {
      assert j != i;
      assert !Cmp(s[c], s[j]);
    }
  }

  // ---------- in place ----------

  method Swap(a: array<QueuedMessage>, n: nat, i: nat, j: nat)
    requires n <= a.Length && i < n && j < n
    modifies a
    ensures a[..n] == Swapped(old(a[..n]), i, j) && a[n..] == old(a[n..])
  {
    a[i], a[j] := a[j], a[i];
  }

  /** `s` arises from `s0` by lifting the last element to index `i`. */
  ghost predicate Lifted(s0: seq<QueuedMessage>, s: seq<QueuedMessage>, i: nat) {
    && RisingAt(s, i) && |s| == |s0| && multiset(s) == multiset(s0)
    && s[i] == s0[|s0| - 1] && (i > 0 ==> s[0] == s0[0])
  }

  lemma LiftOne(s0: seq<QueuedMessage>, s: seq<QueuedMessage>, i: nat)
    requires Lifted(s0, s, i) && i > 0 && Cmp(s[Parent(i)], s[i])
    ensures Lifted(s0, Swapped(s, i, Parent(i)), Parent(i))
  {
    RiseOne(s, i);
    hide RisingAt;
    SwappedSame(s, i, Parent(i));
  }

  lemma LastIsLifted(s: seq<QueuedMessage>)
    requires |s| > 0 && IsHeap(s[..|s| - 1])
    ensures Lifted(s, s, |s| - 1)
  {
    LastRises(s, s[..|s| - 1]);
  }

  lemma LiftedFar(s0: seq<QueuedMessage>, s: seq<QueuedMessage>, i: nat)
    requires Lifted(s0, s, i) && (i > 0 ==> !Cmp(s[Parent(i)], s[i]))
    ensures IsHeap(s) && multiset(s) == multiset(s0) && (s[0] == s0[0] || s[0] == s0[|s0| - 1])
  {
    Risen(s, i);
  }

  /** `push_heap`: the last of the `n` elements is sifted up into the heap of the others. It either
      becomes the front or leaves the front as it was. */
  method PushHeap(a: array<QueuedMessage>, n: nat)
    requires 0 < n <= a.Length && IsHeap(a[..n - 1])
    modifies a
    ensures IsHeap(a[..n]) && multiset(a[..n]) == multiset(old(a[..n])) && a[n..] == old(a[n..])
    ensures a[0] == old(a[0]) || a[0] == old(a[n - 1])
  {
    hide IsHeap, Lifted, Swapped, Cmp;
    ghost var s0 := a[..n];
    var i: nat := n - 1;
    assert a[..n][..n - 1] == a[..n - 1];
    LastIsLifted(s0);
    while i > 0 && Cmp(a[Parent(i)], a[i])
      invariant i < n && Lifted(s0, a[..n], i)
      invariant a[n..] == old(a[n..])
    {
      LiftOne(s0, a[..n], i);
      Swap(a, n, i, Parent(i));
      i := Parent(i);
    }
    LiftedFar(s0, a[..n], i);
  }

  lemma LastRises(s: seq<QueuedMessage>, t: seq<QueuedMessage>)
    requires |s| > 0 && t == s[..|s| - 1] && IsHeap(t)
    ensures RisingAt(s, |s| - 1)
  {
    forall j | 0 < j < |s| && j != |s| - 1 ensures !Cmp(s[Parent(j)], s[j]) {
      assert !Cmp(t[Parent(j)], t[j]);
    }
  }

  lemma Risen(s: seq<QueuedMessage>, i: nat)
    requires RisingAt(s, i) && (i > 0 ==> !Cmp(s[Parent(i)], s[i]))
    ensures IsHeap(s)
  {
  }

  /** Sifts the element at `lo` down into the heap below it. */
  method SiftDown(a: array<QueuedMessage>, n: nat, lo: nat)
    requires lo < n <= a.Length && HeapFrom(a[..n], lo + 1)
    modifies a
    ensures HeapFrom(a[..n], lo) && multiset(a[..n]) == multiset(old(a[..n])) && a[n..] == old(a[n..])
  {
    var i: nat := lo;
    while 2 * i + 1 < n
      invariant SinkingAt(a[..n], lo, i)
      invariant multiset(a[..n]) == multiset(old(a[..n])) && a[n..] == old(a[n..])
      decreases n - i
    {
      var c := 2 * i + 1;
      if c + 1 < n && Cmp(a[c], a[c + 1]) { c := c + 1; }
      SmallerChild(a[..n], i, c);
      if !Cmp(a[i], a[c]) {
        Sunk(a[..n], lo, i);
        return;
      }
      SinkOne(a[..n], lo, i, c);
      SwappedSame(a[..n], i, c);
      Swap(a, n, i, c);
      i := c;
    }
    Sunk(a[..n], lo, i);
  }

  lemma SmallerChild(s: seq<QueuedMessage>, i: nat, c: nat)
    requires 2 * i + 1 < |s| && 2 * i + 1 <= c <= 2 * i + 2 && c < |s|
    requires c == 2 * i + 2 ==> Cmp(s[2 * i + 1], s[c])
    requires c == 2 * i + 1 && c + 1 < |s| ==> !Cmp(s[c], s[c + 1])
    ensures Parent(c) == i
    ensures forall j :: 0 < j < |s| && Parent(j) == i ==> !Cmp(s[c], s[j])
  {
    assert forall j :: 0 < j < |s| && Parent(j) == i ==> j == 2 * i + 1 || j == 2 * i + 2;
  }

  lemma Sunk(s: seq<QueuedMessage>, lo: nat, i: nat)
    requires SinkingAt(s, lo, i)
    requires forall j :: 0 < j < |s| && Parent(j) == i ==> !Cmp(s[i], s[j])
    ensures HeapFrom(s, lo)
  {
  }

  /** `pop_heap`: the front goes to the end, the others form a heap again. */
  method PopHeap(a: array<QueuedMessage>, n: nat)
    requires 0 < n <= a.Length && IsHeap(a[..n])
    modifies a
    ensures a[n - 1] == old(a[0]) && IsHeap(a[..n - 1])
    ensures multiset(a[..n]) == multiset(old(a[..n])) && a[n..] == old(a[n..])
  {
    SwappedSame(a[..n], 0, n - 1);
    Swap(a, n, 0, n - 1);
    assert a[n - 1] == a[..n][n - 1];
    TailIsHeap(old(a[..n]), a[..n - 1]);
    if n > 1 {
      label swapped:
      SiftDown(a, n - 1, 0);
      LastKept(old@swapped(a[..]), a[..], n - 1);
    }
  }

  lemma TailIsHeap(s: seq<QueuedMessage>, t: seq<QueuedMessage>)
    requires IsHeap(s) && |s| == |t| + 1
    requires forall j :: 0 < j < |t| ==> t[j] == s[j]
    ensures HeapFrom(t, 1)
  {
  }

  /** Permuting the first `k` elements leaves the multiset of the first `k + 1` as it was. */
  lemma LastKept(s: seq<QueuedMessage>, t: seq<QueuedMessage>, k: nat)
    requires k < |s| == |t| && multiset(s[..k]) == multiset(t[..k]) && s[k..] == t[k..]
    ensures multiset(s[..k + 1]) == multiset(t[..k + 1]) && s[k] == t[k] && s[k + 1..] == t[k + 1..]
  {
    assert s[k] == s[k..][0] && t[k] == t[k..][0];
    assert s[..k + 1] == s[..k] + [s[k]] && t[..k + 1] == t[..k] + [t[k]];
    assert s[k + 1..] == s[k..][1..] && t[k + 1..] == t[k..][1..];
  }

  /** `make_heap`: any `n` elements are rearranged into a heap. */
  method MakeHeap(a: array<QueuedMessage>, n: nat)
    requires n <= a.Length
    modifies a
    ensures IsHeap(a[..n]) && multiset(a[..n]) == multiset(old(a[..n])) && a[n..] == old(a[n..])
  {
    var lo: nat := n / 2;
    while lo > 0
      invariant lo <= n / 2 && HeapFrom(a[..n], lo)
      invariant multiset(a[..n]) == multiset(old(a[..n])) && a[n..] == old(a[n..])
    {
      lo := lo - 1;
      SiftDown(a, n, lo);
    }
  }
}
