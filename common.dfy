/** Shared vocabulary of the housekeeping model: identifiers, optional values,
    HTTP replies and the integer divisions that JavaScript's Math.round and
    Math.trunc perform on a quotient. */
module Common {

  /** Record identifiers (Mongo ObjectIds on the server, strings on the client).
      The empty string is JavaScript's falsy "no id". */
  type Id = string

  datatype Option<+T> = None | Some(value: T)

  /** What a route handler sends: a status code with a body, or a status code
      with the message of its JSON error object. */
  datatype Reply<+T> = Ok(code: int, body: T) | Err(code: int, message: string)

  /** Math.round(a / b) for b > 0: halves rounded up (towards +infinity, as
      Math.round does). RoundDivBounds states that it is the nearest integer. */
  function RoundDiv(a: int, b: int): int
    requires b > 0
  {
    (2 * a + b) / (2 * b)
  }

  /** RoundDiv(a, b) is the integer nearest to a / b, a half going up. */
  lemma RoundDivBounds(a: int, b: int)
    requires b > 0
    ensures 2 * b * RoundDiv(a, b) <= 2 * a + b < 2 * b * (RoundDiv(a, b) + 1)
  {
    var n, d := 2 * a + b, 2 * b;
    var q, m := n / d, n % d;
    assert n == q * d + m && 0 <= m < d;
    assert d * (q + 1) == d * q + d;
  }

  /** Math.trunc(a / b) for b > 0: the quotient with its fraction dropped. */
  function TruncDiv(a: int, b: int): int
    requires b > 0
  {
    if a >= 0 then a / b else -((-a) / b)
  }

  /** TruncDiv rounds towards zero: the quotient times b lies between 0 and a,
      less than b away from a. */
  lemma TruncDivBounds(a: int, b: int)
    requires b > 0
    ensures a >= 0 ==> 0 <= TruncDiv(a, b) * b <= a < (TruncDiv(a, b) + 1) * b
    ensures a < 0 ==> (TruncDiv(a, b) - 1) * b < a <= TruncDiv(a, b) * b <= 0
  {
    if a >= 0 {
      DivideBounds(a, b);
    } else {
      DivideBounds(-a, b);
    }
  }

  /** Floor division of a non-negative number brackets it between two multiples. */
  lemma DivideBounds(n: int, b: int)
    requires n >= 0 && b > 0
    ensures 0 <= (n / b) * b <= n < (n / b + 1) * b
  {
    var q, m := n / b, n % b;
    assert n == q * b + m && 0 <= m < b;
    assert (q + 1) * b == q * b + b;
  }

  /** Milliseconds per minute. */
  const MinuteMs: int := 60000

  /** r can be obtained from s by deleting elements, the rest kept in order. */
  predicate IsSubsequence<T(==)>(r: seq<T>, s: seq<T>)
    decreases |s|
  {
    if r == [] then true
    else if s == [] then false
    else (r[0] == s[0] && IsSubsequence(r[1..], s[1..])) || IsSubsequence(r, s[1..])
  }

  /** Array.prototype.filter: the elements of s that keep accepts, in their order. */
  function Filter<T(==,!new)>(s: seq<T>, keep: T -> bool): (r: seq<T>)
    ensures |r| <= |s|
    ensures IsSubsequence(r, s)
    ensures forall x :: x in r <==> x in s && keep(x)
  {
    if s == [] then []
    else if keep(s[0]) then [s[0]] + Filter(s[1..], keep)
    else Filter(s[1..], keep)
  }

  /** A filter whose predicate accepts every element returns the list unchanged. */
  lemma {:induction false} FilterKeepsAll<T(!new)>(s: seq<T>, keep: T -> bool)
    requires forall x :: x in s ==> keep(x)
    ensures Filter(s, keep) == s
  {
    if s != [] {
      FilterKeepsAll(s[1..], keep);
    }
  }

  /** Filtering a concatenation filters each part. */
  lemma {:induction false} FilterAppend<T(!new)>(s: seq<T>, t: seq<T>, keep: T -> bool)
    ensures Filter(s + t, keep) == Filter(s, keep) + Filter(t, keep)
  {
    if s == [] {
      assert s + t == t;
    } else {
      assert (s + t)[0] == s[0] && (s + t)[1..] == s[1..] + t;
      FilterAppend(s[1..], t, keep);
    }
  }

  /** A filter keeps every copy of an accepted element and no copy of a
      rejected one. */
  lemma {:induction false} FilterMultiplicity<T(!new)>(s: seq<T>, keep: T -> bool, x: T)
    ensures multiset(Filter(s, keep))[x] == if keep(x) then multiset(s)[x] else 0
  {
    if s != [] {
      FilterMultiplicity(s[1..], keep, x);
      assert s == [s[0]] + s[1..];
      assert multiset(s) == multiset{s[0]} + multiset(s[1..]);
      if keep(s[0]) {
        assert Filter(s, keep) == [s[0]] + Filter(s[1..], keep);
        assert multiset(Filter(s, keep)) == multiset{s[0]} + multiset(Filter(s[1..], keep));
      } else {
        assert Filter(s, keep) == Filter(s[1..], keep);
      }
    }
  }

  /** FilterMultiplicity for every element at once. */
  lemma FilterMultiplicities<T(!new)>(s: seq<T>, keep: T -> bool)
    ensures forall x :: multiset(Filter(s, keep))[x] == if keep(x) then multiset(s)[x] else 0
  {
    forall x
      ensures multiset(Filter(s, keep))[x] == if keep(x) then multiset(s)[x] else 0
    {
      FilterMultiplicity(s, keep, x);
    }
  }
}
