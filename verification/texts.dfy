/** Strings cut at a character. */
module Texts {

  /** The position of the first `c`, or the length. */
  function Until(s: string, c: char): (n: nat)
    ensures n <= |s| && (n < |s| ==> s[n] == c) && c !in s[..n]
  {
    if s == "" || s[0] == c then 0 else 1 + Until(s[1..], c)
  }

  lemma {:induction false} UntilAfter(a: string, c: char, b: string)
    requires c !in a
    ensures Until(a + [c] + b, c) == |a| && Until(a, c) == |a|
  {
    if a == "" {
      assert "" + [c] + b == [c] + b;
    } else {
      assert (a + [c] + b)[1..] == a[1..] + [c] + b;
      UntilAfter(a[1..], c, b);
    }
  }

  lemma PlusAssociates<T>(a: seq<T>, b: seq<T>, c: seq<T>)
    ensures (a + b) + c == a + (b + c)
  {
  }
}
