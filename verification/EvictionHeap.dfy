/** Binary heaps on sequences: the sift-up and sift-down of a standard heap package, and what they preserve. */
module EvictionHeap {

  /** `less` is a strict weak order: asymmetric, and "not beaten by" is transitive. */
  ghost predicate StrictWeak<T(!new)>(less: (T, T) -> bool) {
    && (forall a, b :: less(a, b) ==> !less(b, a))
    && (forall a, b, c :: !less(b, a) && !less(c, b) ==> !less(c, a))
  }

  function Parent(k: int): int
    requires k > 0
  {
    (k - 1) / 2
  }

  function Swap<T>(s: seq<T>, i: nat, j: nat): seq<T>
    requires i < |s| && j < |s|
  {
    s[i := s[j]][j := s[i]]
  }

  function Up<T>(less: (T, T) -> bool, s: seq<T>, j: nat): (r: seq<T>)
    requires j < |s|
    ensures |r| == |s|
    decreases j
  {
    if j == 0 || !less(s[j], s[Parent(j)]) then s else Up(less, Swap(s, Parent(j), j), Parent(j))
  }

  /** The smaller child of `i` among the first `n` positions. */
  function Child<T>(less: (T, T) -> bool, s: seq<T>, i: nat, n: nat): (j: nat)
    requires n <= |s| && 2 * i + 1 < n
    ensures (j == 2 * i + 1 || j == 2 * i + 2) && j < n
  {
    if 2 * i + 2 < n && less(s[2 * i + 2], s[2 * i + 1]) then 2 * i + 2 else 2 * i + 1
  }

  predicate Sinks<T>(less: (T, T) -> bool, s: seq<T>, i: nat, n: nat)
    requires n <= |s|
  {
    2 * i + 1 < n && less(s[Child(less, s, i, n)], s[i])
  }

  function Down<T>(less: (T, T) -> bool, s: seq<T>, i: nat, n: nat): (r: seq<T>)
    requires n <= |s|
    ensures |r| == |s|
    decreases n - i
  {
    if !Sinks(less, s, i, n) then s
    else Down(less, Swap(s, i, Child(less, s, i, n)), Child(less, s, i, n), n)
  }

  function Push<T>(less: (T, T) -> bool, s: seq<T>, x: T): seq<T> {
    Up(less, s + [x], |s|)
  }

  /** Restores the order after the last element has been swapped into position `i`. */
  function Sift<T>(less: (T, T) -> bool, s: seq<T>, i: nat, n: nat): (r: seq<T>)
    requires i < n <= |s|
    ensures |r| == |s|
  {
    if Sinks(less, s, i, n) then Down(less, s, i, n) else Up(less, s, i)
  }

  function Remove<T>(less: (T, T) -> bool, s: seq<T>, i: nat): seq<T>
    requires i < |s|
  {
    var n := |s| - 1;
    if i == n then s[..n] else Sift(less, Swap(s, i, n), i, n)[..n]
  }

  function Pop<T>(less: (T, T) -> bool, s: seq<T>): seq<T>
    requires s != []
  {
    var n := |s| - 1;
    Down(less, Swap(s, 0, n), 0, n)[..n]
  }

  // ---------------------------------------------------------------------------------------------
  // Contents.

  lemma SwapPermutes<T>(s: seq<T>, i: nat, j: nat)
    requires i < |s| && j < |s|
    ensures multiset(Swap(s, i, j)) == multiset(s)
  {
  }

  lemma {:induction false} UpPermutes<T>(less: (T, T) -> bool, s: seq<T>, j: nat)
    requires j < |s|
    ensures multiset(Up(less, s, j)) == multiset(s)
    decreases j
  {
    if j != 0 && less(s[j], s[Parent(j)]) {
      SwapPermutes(s, Parent(j), j);
      UpPermutes(less, Swap(s, Parent(j), j), Parent(j));
    }
  }

  /** Sift-down permutes the first `n` positions and leaves the rest alone. */
  lemma {:induction false} DownPermutes<T>(less: (T, T) -> bool, s: seq<T>, i: nat, n: nat)
    requires n <= |s|
    ensures multiset(Down(less, s, i, n)) == multiset(s)
    ensures Down(less, s, i, n)[n..] == s[n..]
    decreases n - i
  {
    if Sinks(less, s, i, n) {
      var j := Child(less, s, i, n);
      SwapPermutes(s, i, j);
      DownPermutes(less, Swap(s, i, j), j, n);
    }
  }

  /** Sift-up from a position below `n` leaves the rest alone. */
  lemma {:induction false} UpIsLocal<T>(less: (T, T) -> bool, s: seq<T>, j: nat, n: nat)
    requires j < n <= |s|
    ensures Up(less, s, j)[n..] == s[n..]
    decreases j
  {
    if j != 0 && less(s[j], s[Parent(j)]) {
      UpIsLocal(less, Swap(s, Parent(j), j), Parent(j), n);
    }
  }

  lemma PushPermutes<T>(less: (T, T) -> bool, s: seq<T>, x: T)
    ensures multiset(Push(less, s, x)) == multiset(s) + multiset{x}
  {
    UpPermutes(less, s + [x], |s|);
  }

  lemma SiftPermutes<T>(less: (T, T) -> bool, s: seq<T>, i: nat, n: nat)
    requires i < n <= |s|
    ensures multiset(Sift(less, s, i, n)) == multiset(s) && Sift(less, s, i, n)[n..] == s[n..]
  {
    DownPermutes(less, s, i, n);
    UpPermutes(less, s, i);
    UpIsLocal(less, s, i, n);
  }

  lemma RemovePermutes<T>(less: (T, T) -> bool, s: seq<T>, i: nat)
    requires i < |s|
    ensures multiset(s) == multiset(Remove(less, s, i)) + multiset{s[i]}
  {
    var n := |s| - 1;
    if i == n {
      assert s == s[..n] + [s[n]];
    } else {
      var swapped := Swap(s, i, n);
      var sifted := Sift(less, swapped, i, n);
      SwapPermutes(s, i, n);
      SiftPermutes(less, swapped, i, n);
      assert swapped[n..] == [s[i]];
      assert sifted == sifted[..n] + sifted[n..];
    }
  }

  lemma PopIsRemoveFirst<T>(less: (T, T) -> bool, s: seq<T>)
    requires s != []
    ensures Pop(less, s) == Remove(less, s, 0)
  {
  }

  // ---------------------------------------------------------------------------------------------
  // Order.

  predicate Ordered<T>(less: (T, T) -> bool, s: seq<T>, n: nat)
    requires n <= |s|
  {
    forall k :: 0 < k < n ==> !less(s[k], s[Parent(k)])
  }

  /** Ordered but for the edge above `j`; the children of `j` are not smaller than the parent of `j`. */
  predicate OrderedButAbove<T>(less: (T, T) -> bool, s: seq<T>, j: nat, n: nat)
    requires n <= |s| && j < n
  {
    && (forall k :: 0 < k < n && k != j ==> !less(s[k], s[Parent(k)]))
    && (j > 0 ==> forall k :: 0 < k < n && Parent(k) == j ==> !less(s[k], s[Parent(j)]))
  }

  /** Ordered but for the edges below `i`; the children of `i` are not smaller than the parent of `i`. */
  predicate OrderedButBelow<T>(less: (T, T) -> bool, s: seq<T>, i: nat, n: nat)
    requires n <= |s|
  {
    && (forall k :: 0 < k < n && Parent(k) != i ==> !less(s[k], s[Parent(k)]))
    && (0 < i < n ==> forall k :: 0 < k < n && Parent(k) == i ==> !less(s[k], s[Parent(i)]))
  }

  lemma {:induction false} UpOrders<T(!new)>(less: (T, T) -> bool, s: seq<T>, j: nat, n: nat)
    requires StrictWeak(less) && j < n <= |s| && OrderedButAbove(less, s, j, n)
    ensures Ordered(less, Up(less, s, j), n)
    decreases j
  {
    if j != 0 && less(s[j], s[Parent(j)]) {
      var p := Parent(j);
      var t := Swap(s, p, j);
      forall k | 0 < k < n && k != p
        ensures !less(t[k], t[Parent(k)])
      {
        if k == j {
        } else if Parent(k) == p {
          assert !less(s[k], s[p]);
        } else if Parent(k) == j {
          assert !less(s[k], s[p]);
        }
      }
      UpOrders(less, t, p, n);
    }
  }

  lemma DownStepKeepsOrder<T(!new)>(less: (T, T) -> bool, s: seq<T>, i: nat, n: nat)
    requires StrictWeak(less) && n <= |s| && OrderedButBelow(less, s, i, n) && Sinks(less, s, i, n)
    ensures var j := Child(less, s, i, n); OrderedButBelow(less, Swap(s, i, j), j, n)
  {
    var j := Child(less, s, i, n);
    var t := Swap(s, i, j);
    assert Parent(j) == i;
    forall k | 0 < k < n && Parent(k) != j
      ensures !less(t[k], t[Parent(k)])
    {
      if k != j && Parent(k) == i {
        ChildIsMinimal(less, s, i, n, k);
      } else if k == i {
        assert !less(s[j], s[Parent(i)]);
      }
    }
    forall k | 0 < k < n && Parent(k) == j
      ensures !less(t[k], t[i])
    {
      assert !less(s[k], s[j]);
    }
  }

  lemma DownStopsOrdered<T(!new)>(less: (T, T) -> bool, s: seq<T>, i: nat, n: nat)
    requires StrictWeak(less) && n <= |s| && OrderedButBelow(less, s, i, n) && !Sinks(less, s, i, n)
    ensures Ordered(less, s, n)
  {
    forall k | 0 < k < n && Parent(k) == i
      ensures !less(s[k], s[i])
    {
      ChildIsMinimal(less, s, i, n, k);
    }
  }

  lemma {:induction false} DownOrders<T(!new)>(less: (T, T) -> bool, s: seq<T>, i: nat, n: nat)
    requires StrictWeak(less) && n <= |s| && OrderedButBelow(less, s, i, n)
    ensures Ordered(less, Down(less, s, i, n), n)
    decreases n - i
  {
    if Sinks(less, s, i, n) {
      DownStepKeepsOrder(less, s, i, n);
      DownOrders(less, Swap(s, i, Child(less, s, i, n)), Child(less, s, i, n), n);
    } else {
      DownStopsOrdered(less, s, i, n);
    }
  }

  lemma ChildIsMinimal<T(!new)>(less: (T, T) -> bool, s: seq<T>, i: nat, n: nat, k: nat)
    requires StrictWeak(less) && n <= |s| && 0 < k < n && Parent(k) == i
    ensures !less(s[k], s[Child(less, s, i, n)])
  {
  }

  lemma SiftOrders<T(!new)>(less: (T, T) -> bool, s: seq<T>, i: nat, n: nat)
    requires StrictWeak(less) && i < n < |s| && Ordered(less, s, |s|)
    ensures Ordered(less, Sift(less, Swap(s, i, n), i, n), n)
  {
    var t := Swap(s, i, n);
    forall k | 0 < k < n && Parent(k) == i && i > 0
      ensures !less(t[k], t[Parent(i)])
    {
      assert !less(s[k], s[i]) && !less(s[i], s[Parent(i)]);
    }
    if Sinks(less, t, i, n) {
      if i > 0 {
        var c := Child(less, t, i, n);
        assert !less(t[c], t[Parent(i)]) && !less(t[i], t[c]);
      }
      DownOrders(less, t, i, n);
    } else {
      forall k | 0 < k < n && Parent(k) == i
        ensures !less(t[k], t[i])
      {
        ChildIsMinimal(less, t, i, n, k);
      }
      UpOrders(less, t, i, n);
    }
  }

  lemma TakeOrdered<T>(less: (T, T) -> bool, s: seq<T>, n: nat)
    requires n <= |s| && Ordered(less, s, n)
    ensures Ordered(less, s[..n], n)
  {
  }

  lemma RemoveOrders<T(!new)>(less: (T, T) -> bool, s: seq<T>, i: nat)
    requires StrictWeak(less) && i < |s| && Ordered(less, s, |s|)
    ensures var r := Remove(less, s, i); Ordered(less, r, |r|)
  {
    var n := |s| - 1;
    if i < n {
      SiftOrders(less, s, i, n);
      TakeOrdered(less, Sift(less, Swap(s, i, n), i, n), n);
    }
  }

  lemma PushOrders<T(!new)>(less: (T, T) -> bool, s: seq<T>, x: T)
    requires StrictWeak(less) && Ordered(less, s, |s|)
    ensures var r := Push(less, s, x); Ordered(less, r, |r|)
  {
    UpOrders(less, s + [x], |s|, |s| + 1);
  }

  /** The first element of a heap is not beaten by any other. */
  lemma {:induction false} FirstIsMinimal<T(!new)>(less: (T, T) -> bool, s: seq<T>, k: nat)
    requires StrictWeak(less) && Ordered(less, s, |s|) && k < |s|
    ensures !less(s[k], s[0])
  {
    if k > 0 {
      FirstIsMinimal(less, s, Parent(k));
    }
  }

  // ---------------------------------------------------------------------------------------------
  // Repeated pops.

  function Popped<T>(less: (T, T) -> bool, s: seq<T>, n: nat): seq<T>
    decreases n
  {
    if n == 0 || s == [] then [] else [s[0]] + Popped(less, Pop(less, s), n - 1)
  }

  function Rest<T>(less: (T, T) -> bool, s: seq<T>, n: nat): seq<T>
    decreases n
  {
    if n == 0 || s == [] then s else Rest(less, Pop(less, s), n - 1)
  }

  /** Popping `a` and then `b` elements pops the same elements, in the same order, as popping `a + b`. */
  lemma {:induction false} PopsCompose<T>(less: (T, T) -> bool, s: seq<T>, a: nat, b: nat)
    ensures Popped(less, s, a + b) == Popped(less, s, a) + Popped(less, Rest(less, s, a), b)
    ensures Rest(less, s, a + b) == Rest(less, Rest(less, s, a), b)
    decreases a
  {
    if a > 0 && s != [] {
      PopsCompose(less, Pop(less, s), a - 1, b);
    }
  }

  lemma PopOneMore<T>(less: (T, T) -> bool, s: seq<T>, n: nat)
    requires Rest(less, s, n) != []
    ensures Popped(less, s, n + 1) == Popped(less, s, n) + [Rest(less, s, n)[0]]
    ensures Rest(less, s, n + 1) == Pop(less, Rest(less, s, n))
  {
    PopsCompose(less, s, n, 1);
    assert Popped(less, Rest(less, s, n), 1) == [Rest(less, s, n)[0]];
  }

  lemma PopNoMore<T>(less: (T, T) -> bool, s: seq<T>, m: nat, n: nat)
    requires m <= n && (m == n || Rest(less, s, m) == [])
    ensures Popped(less, s, n) == Popped(less, s, m) && Rest(less, s, n) == Rest(less, s, m)
  {
    PopsCompose(less, s, m, n - m);
  }

  lemma {:induction false} PopsPermute<T>(less: (T, T) -> bool, s: seq<T>, n: nat)
    ensures multiset(Popped(less, s, n)) + multiset(Rest(less, s, n)) == multiset(s)
    decreases n
  {
    if n > 0 && s != [] {
      var t := Pop(less, s);
      PopIsRemoveFirst(less, s);
      RemovePermutes(less, s, 0);
      PopsPermute(less, t, n - 1);
      var later := Popped(less, t, n - 1);
      assert multiset([s[0]] + later) == multiset{s[0]} + multiset(later);
    }
  }

  lemma {:induction false} PopsCount<T>(less: (T, T) -> bool, s: seq<T>, n: nat)
    ensures |Popped(less, s, n)| == if n <= |s| then n else |s|
    decreases n
  {
    if n > 0 && s != [] {
      PopsCount(less, Pop(less, s), n - 1);
    }
  }

  ghost predicate SortedBy<T>(less: (T, T) -> bool, s: seq<T>) {
    forall i, j :: 0 <= i < j < |s| ==> !less(s[j], s[i])
  }

  /** No element of `rest` comes before an element of `out`. */
  ghost predicate NoneBeats<T>(less: (T, T) -> bool, rest: seq<T>, out: seq<T>) {
    forall i, x :: 0 <= i < |out| && x in rest ==> !less(x, out[i])
  }

  /** Popped elements come out sorted, none is beaten by a later one or by one that stays, and the rest is a heap. */
  lemma {:induction false} PopsAreSorted<T(!new)>(less: (T, T) -> bool, s: seq<T>, n: nat)
    requires StrictWeak(less) && Ordered(less, s, |s|)
    ensures var out, rest := Popped(less, s, n), Rest(less, s, n);
            SortedBy(less, out) && NoneBeats(less, rest, out) && Ordered(less, rest, |rest|)
    decreases n
  {
    if n > 0 && s != [] {
      PopIsRemoveFirst(less, s);
      RemoveOrders(less, s, 0);
      var t := Pop(less, s);
      PopsAreSorted(less, t, n - 1);
      FirstBeatsPopped(less, s, n - 1);
      var out, later := Popped(less, s, n), Popped(less, t, n - 1);
      assert out == [s[0]] + later;
      forall i, j | 0 <= i < j < |out|
        ensures !less(out[j], out[i])
      {
        assert out[j] == later[j - 1] && out[j] in later;
        if i > 0 {
          assert !less(later[j - 1], later[i - 1]);
        }
      }
      forall i, x | 0 <= i < |out| && x in Rest(less, s, n)
        ensures !less(x, out[i])
      {
        if i > 0 {
          assert !less(x, later[i - 1]);
        }
      }
    }
  }

  lemma FirstBeatsPopped<T(!new)>(less: (T, T) -> bool, s: seq<T>, n: nat)
    requires StrictWeak(less) && s != [] && Ordered(less, s, |s|)
    ensures forall x :: x in Popped(less, Pop(less, s), n) || x in Rest(less, Pop(less, s), n) ==> !less(x, s[0])
  {
    var t := Pop(less, s);
    PopIsRemoveFirst(less, s);
    RemovePermutes(less, s, 0);
    PopsPermute(less, t, n);
    forall x | x in Popped(less, t, n) || x in Rest(less, t, n)
      ensures !less(x, s[0])
    {
      assert x in multiset(Popped(less, t, n)) + multiset(Rest(less, t, n));
      assert x in multiset(s);
      var k :| 0 <= k < |s| && s[k] == x;
      FirstIsMinimal(less, s, k);
    }
  }
}
