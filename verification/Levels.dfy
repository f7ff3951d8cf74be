/** Ordered priority levels: the strictly descending listing of a set of priorities. */
module Levels {

  predicate Descending(s: seq<int>) {
    forall i, j :: 0 <= i < j < |s| ==> s[i] > s[j]
  }

  function Elements(s: seq<int>): set<int> {
    set x | x in s
  }

  function Insert(s: seq<int>, p: int): seq<int> {
    if s == [] || p > s[0] then [p] + s else [s[0]] + Insert(s[1..], p)
  }

  function Without(s: seq<int>, p: int): seq<int> {
    if s == [] then [] else if s[0] == p then s[1..] else [s[0]] + Without(s[1..], p)
  }

  lemma ConsFacts(x: int, rest: seq<int>)
    requires Descending(rest) && forall y :: y in rest ==> y < x
    ensures Descending([x] + rest)
    ensures Elements([x] + rest) == {x} + Elements(rest)
  {
    var s := [x] + rest;
    forall i, j | 0 <= i < j < |s|
      ensures s[i] > s[j]
    {
      assert s[j] == rest[j - 1] && s[j] in rest;
    }
  }

  lemma TailFacts(s: seq<int>)
    requires Descending(s) && s != []
    ensures Descending(s[1..]) && s == [s[0]] + s[1..]
    ensures forall y :: y in s[1..] ==> y < s[0]
    ensures Elements(s) == {s[0]} + Elements(s[1..])
  {
    ConsFacts(s[0], s[1..]);
  }

  lemma {:induction false} InsertFacts(s: seq<int>, p: int)
    requires Descending(s) && p !in s
    ensures Descending(Insert(s, p))
    ensures Elements(Insert(s, p)) == Elements(s) + {p}
  {
    if s == [] || p > s[0] {
      ConsFacts(p, s);
    } else {
      TailFacts(s);
      InsertFacts(s[1..], p);
      var rest := Insert(s[1..], p);
      assert forall y :: y in rest ==> y in Elements(rest);
      ConsFacts(s[0], rest);
    }
  }

  lemma {:induction false} WithoutFacts(s: seq<int>, p: int)
    requires Descending(s)
    ensures Descending(Without(s, p))
    ensures Elements(Without(s, p)) == Elements(s) - {p}
  {
    if s != [] {
      TailFacts(s);
      if s[0] != p {
        WithoutFacts(s[1..], p);
        var rest := Without(s[1..], p);
        assert forall y :: y in rest ==> y in Elements(rest);
        ConsFacts(s[0], rest);
      }
    }
  }

  lemma HeadIsElement(s: seq<int>)
    ensures s != [] ==> s[0] in Elements(s)
  {
  }

  /** A set has only one strictly descending listing. */
  lemma {:induction false} ListingIsUnique(s: seq<int>, t: seq<int>)
    requires Descending(s) && Descending(t) && Elements(s) == Elements(t)
    ensures s == t
  {
    assert s == [] || Elements(s) != {} by {
      HeadIsElement(s);
    }
    assert t == [] || Elements(t) != {} by {
      HeadIsElement(t);
    }
    if s != [] && t != [] {
      assert forall x :: x in s <==> x in Elements(s);
      assert forall x :: x in t <==> x in Elements(t);
      assert s[0] in t && t[0] in s;
      assert s[0] == t[0];
      TailFacts(s);
      TailFacts(t);
      assert s[0] !in Elements(s[1..]) && s[0] !in Elements(t[1..]);
      assert Elements(s[1..]) == Elements(s) - {s[0]} == Elements(t[1..]);
      ListingIsUnique(s[1..], t[1..]);
    }
  }
}
