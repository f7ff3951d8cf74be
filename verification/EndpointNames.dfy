/** The names of endpoints: one per pod and rank. */
module EndpointNames {

  datatype NamespacedName = NamespacedName(namespace: string, name: string)

  function Digit(n: nat): char
    requires n < 10
  {
    ('0' as int + n) as char
  }

  function Value(c: char): int {
    c as int - '0' as int
  }

  predicate IsDigit(c: char) {
    '0' <= c <= '9'
  }

  /** The decimal form of a number. */
  function Itoa(n: nat): (s: string)
    ensures s != [] && forall c :: c in s ==> IsDigit(c)
  {
    if n < 10 then [Digit(n)] else Itoa(n / 10) + [Digit(n % 10)]
  }

  function Atoi(s: string): int {
    if s == [] then 0 else 10 * Atoi(s[..|s| - 1]) + Value(s[|s| - 1])
  }

  lemma {:induction false} AtoiItoa(n: nat)
    ensures Atoi(Itoa(n)) == n
  {
    var s := Itoa(n);
    if n < 10 {
      assert s[..0] == [];
    } else {
      AtoiItoa(n / 10);
      assert s[..|s| - 1] == Itoa(n / 10);
    }
  }

  const RANK := "-rank-"

  function EndpointName(namespace: string, pod: string, rank: nat): NamespacedName {
    NamespacedName(namespace, pod + RANK + Itoa(rank))
  }

  /** The length of the run of digits at the end. */
  function TrailingDigits(s: string): nat {
    if s == [] || !IsDigit(s[|s| - 1]) then 0 else 1 + TrailingDigits(s[..|s| - 1])
  }

  lemma {:induction false} DigitsAfterRank(pod: string, d: string)
    requires forall c :: c in d ==> IsDigit(c)
    ensures TrailingDigits(pod + RANK + d) == |d|
    decreases |d|
  {
    var s := pod + RANK + d;
    if d == [] {
      assert s[|s| - 1] == RANK[5];
    } else {
      assert s[..|s| - 1] == pod + RANK + d[..|d| - 1];
      DigitsAfterRank(pod, d[..|d| - 1]);
    }
  }

  /** Different pods or ranks have different endpoint names. */
  lemma EndpointNameIsInjective(n1: string, p1: string, r1: nat, n2: string, p2: string, r2: nat)
    requires EndpointName(n1, p1, r1) == EndpointName(n2, p2, r2)
    ensures n1 == n2 && p1 == p2 && r1 == r2
  {
    var d, e := Itoa(r1), Itoa(r2);
    var s, t := p1 + RANK + d, p2 + RANK + e;
    DigitsAfterRank(p1, d);
    DigitsAfterRank(p2, e);
    assert d == s[|s| - |d|..] && e == t[|t| - |e|..];
    assert p1 == s[..|p1|] && p2 == t[..|p2|];
    AtoiItoa(r1);
    AtoiItoa(r2);
  }
}
