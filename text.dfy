/** The JavaScript string operations the pages and schemas rely on:
    toLowerCase, includes and trim. */
module Text {

  /** String.prototype.toLowerCase on one character, for the ASCII letters. */
  function Lower(c: char): (d: char)
    ensures 'A' <= c <= 'Z' ==> d as int == c as int + 32
    ensures !('A' <= c <= 'Z') ==> d == c
    ensures !('A' <= d <= 'Z')
  {
    if 'A' <= c <= 'Z' then (c as int + 32) as char else c
  }

  /** String.prototype.toLowerCase: the same length, each letter lowered;
      lowering twice changes nothing more. */
  function LowerCase(s: string): (r: string)
    ensures |r| == |s|
    ensures forall i :: 0 <= i < |s| ==> r[i] == Lower(s[i])
  {
    seq(|s|, i requires 0 <= i < |s| => Lower(s[i]))
  }

  lemma LowerCaseIdempotent(s: string)
    ensures LowerCase(LowerCase(s)) == LowerCase(s)
  {
    assert forall i :: 0 <= i < |s| ==> Lower(Lower(s[i])) == Lower(s[i]);
  }

  /** `sub` occurs in `s` starting at position i. */
  predicate OccursAt(s: string, sub: string, i: int) {
    0 <= i && i + |sub| <= |s| && s[i..i + |sub|] == sub
  }

  /** String.prototype.includes, scanning from the left: true iff `sub`
      occurs somewhere in `s`; the empty string occurs everywhere. */
  function Includes(s: string, sub: string): (b: bool)
    ensures b <==> exists i :: OccursAt(s, sub, i)
    ensures sub == [] ==> b
    decreases |s|
  {
    if |sub| <= |s| && s[..|sub|] == sub then
      assert OccursAt(s, sub, 0);
      true
    else if |s| == 0 then
      assert forall i :: !OccursAt(s, sub, i);
      false
    else
      var rest := Includes(s[1..], sub);
      assert forall i :: OccursAt(s[1..], sub, i) <==> OccursAt(s, sub, i + 1) by {
        forall i ensures OccursAt(s[1..], sub, i) <==> OccursAt(s, sub, i + 1) {
          if 0 <= i && i + |sub| <= |s[1..]| {
            assert s[1..][i..i + |sub|] == s[i + 1..i + 1 + |sub|];
          }
        }
      }
      assert !OccursAt(s, sub, 0);
      assert (exists i :: OccursAt(s, sub, i)) ==> exists i :: OccursAt(s[1..], sub, i) by {
        if exists i :: OccursAt(s, sub, i) {
          var i :| OccursAt(s, sub, i);
          assert i != 0;
          assert OccursAt(s[1..], sub, i - 1);
        }
      }
      rest
  }

  /** The characters String.prototype.trim removes: the ASCII white space and
      line terminators, no-break space, the line and paragraph separators and
      the byte-order mark. */
  predicate IsSpace(c: char) {
    c == ' ' || c == '\t' || c == '\n' || c == '\r' || c == '\U{000B}' || c == '\U{000C}'
    || c == '\U{00A0}' || c == '\U{2028}' || c == '\U{2029}' || c == '\U{FEFF}'
  }

  /** Every character of t is white space. */
  predicate AllSpace(t: string) {
    forall k :: 0 <= k < |t| ==> IsSpace(t[k])
  }

  /** r is s[i..j], and only white space lies outside it. */
  predicate SpaceAround(s: string, r: string, i: int, j: int) {
    0 <= i <= j <= |s| && r == s[i..j] && AllSpace(s[..i]) && AllSpace(s[j..])
  }

  /** String.prototype.trim: the slice of s between its leading and its
      trailing white space; empty exactly when s is all white space. */
  function Trim(s: string): (r: string)
    ensures exists i, j :: SpaceAround(s, r, i, j)
    ensures r != [] ==> !IsSpace(r[0]) && !IsSpace(r[|r| - 1])
    ensures r == [] <==> AllSpace(s)
  {
    var i := Leading(s);
    if i == |s| then
      assert s[..i] == s;
      assert SpaceAround(s, [], i, i);
      []
    else
      var j := |s| - Trailing(s);
      assert !IsSpace(s[i]);
      assert SpaceAround(s, s[i..j], i, j);
      s[i..j]
  }

  /** The number of white-space characters s starts with. */
  function Leading(s: string): (n: nat)
    ensures n <= |s|
    ensures forall k :: 0 <= k < n ==> IsSpace(s[k])
    ensures n < |s| ==> !IsSpace(s[n])
    decreases |s|
  {
    if s != [] && IsSpace(s[0]) then
      var n := Leading(s[1..]);
      assert forall k :: 1 <= k < n + 1 ==> s[k] == s[1..][k - 1];
      n + 1
    else 0
  }

  /** The number of white-space characters s ends with. */
  function Trailing(s: string): (n: nat)
    ensures n <= |s|
    ensures forall k :: |s| - n <= k < |s| ==> IsSpace(s[k])
    ensures n < |s| ==> !IsSpace(s[|s| - n - 1])
    decreases |s|
  {
    if s != [] && IsSpace(s[|s| - 1]) then
      var init := s[..|s| - 1];
      var n := Trailing(init);
      assert forall k :: |s| - (n + 1) <= k < |s| - 1 ==> s[k] == init[k];
      n + 1
    else 0
  }

  /** Trimming a trimmed string changes nothing. */
  lemma TrimIdempotent(s: string)
    ensures Trim(Trim(s)) == Trim(s)
  {
    var t := Trim(s);
    if t != [] {
      assert Leading(t) == 0;
      assert Trailing(t) == 0;
      assert t[0..|t|] == t;
    }
  }
}
