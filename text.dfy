/** String and sequence helpers standing for the Python built-ins the generator uses. */
module Text {

  function UpperChar(c: char): char
  {
    if 'a' <= c <= 'z' then (c as int - 'a' as int + 'A' as int) as char else c
  }

  /** `str.upper()`, restricted to ASCII letters. */
  function Upper(s: string): (r: string)
    ensures |r| == |s|
    ensures forall i :: 0 <= i < |r| ==> !('a' <= r[i] <= 'z')
    ensures forall i :: 0 <= i < |s| && !('a' <= s[i] <= 'z') ==> r[i] == s[i]
    ensures forall i :: 0 <= i < |s| && 'a' <= s[i] <= 'z' ==> r[i] == (s[i] as int - 'a' as int + 'A' as int) as char
  {
    if s == [] then [] else [UpperChar(s[0])] + Upper(s[1..])
  }

  /** Python's `n[:3] == 'ns '`: a name shorter than three characters never matches. */
  predicate HasNsPrefix(n: string)
  {
    |n| >= 3 && n[..3] == "ns "
  }

  /** How many times `x` occurs in `s`. */
  function Count<T(==)>(s: seq<T>, x: T): nat
  {
    if s == [] then 0 else Count(s[..|s| - 1], x) + (if s[|s| - 1] == x then 1 else 0)
  }

  lemma {:induction false} CountAppend<T>(a: seq<T>, b: seq<T>, x: T)
    ensures Count(a + b, x) == Count(a, x) + Count(b, x)
    decreases |b|
  {
    if b == [] {
      assert a + b == a;
    } else {
      assert (a + b)[..|a + b| - 1] == a + b[..|b| - 1];
      CountAppend(a, b[..|b| - 1], x);
    }
  }

  lemma {:induction false} CountAbsent<T>(s: seq<T>, x: T)
    requires forall k :: 0 <= k < |s| ==> s[k] != x
    ensures Count(s, x) == 0
    decreases |s|
  {
    if s != [] {
      CountAbsent(s[..|s| - 1], x);
    }
  }

  /** Two strings that differ in their first character differ. */
  lemma DifferentFirst(s: string, t: string)
    requires |s| > 0 && |t| > 0 && s[0] != t[0]
    ensures s != t
  {
  }

  /** `p + c + q` determines `c` when `p` and `q` are fixed. */
  lemma {:induction false} InfixInjective(p: string, c1: string, c2: string, q: string)
    requires p + c1 + q == p + c2 + q
    ensures c1 == c2
  {
    var s1, s2 := p + c1 + q, p + c2 + q;
    assert |c1| == |c2|;
    assert c1 == s1[|p|..|p| + |c1|];
    assert c2 == s2[|p|..|p| + |c2|];
  }

  /** Regrouping a concatenation, for emission proofs whose pieces are long. */
  lemma AppendAssoc<T>(a: seq<T>, b: seq<T>, c: seq<T>)
    ensures a + b + c == a + (b + c)
  {
  }

  lemma AppendToEmpty<T>(s: seq<T>)
    ensures [] + s == s
  {
  }
}
