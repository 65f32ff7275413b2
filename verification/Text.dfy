/** Strings joined by a separator character, and taken apart again. */
module Text {

  /** Where c first is in s, or |s| when it is not there. */
  function IndexOf(s: string, c: char): (i: nat)
    ensures i <= |s|
  {
    if s == [] || s[0] == c then 0 else 1 + IndexOf(s[1..], c)
  }

  /** strings.Cut: what is before the first c and what is after it. */
  function Cut(s: string, c: char): (string, string) {
    var i := IndexOf(s, c);
    if i < |s| then (s[..i], s[i+1..]) else (s, "")
  }

  lemma {:induction false} IndexOfJoin(a: string, c: char, b: string)
    ensures IndexOf(a + [c] + b, c) == |a| <==> c !in a
    ensures IndexOf(a + [c] + b, c) <= |a|
  {
    var s := a + [c] + b;
    if a != [] && a[0] != c {
      assert s[1..] == a[1..] + [c] + b;
      assert a == [a[0]] + a[1..];
      IndexOfJoin(a[1..], c, b);
    }
  }

  lemma {:induction false} IndexOfFirst(s: string, c: char)
    ensures c !in s[..IndexOf(s, c)] && (IndexOf(s, c) < |s| ==> s[IndexOf(s, c)] == c)
  {
    if s != [] && s[0] != c {
      IndexOfFirst(s[1..], c);
      assert s[..IndexOf(s, c)] == [s[0]] + s[1..][..IndexOf(s[1..], c)];
    }
  }

  /** Cut takes apart what was joined exactly when the first part holds no separator. */
  lemma CutJoined(a: string, c: char, b: string)
    ensures Cut(a + [c] + b, c) == (a, b) <==> c !in a
  {
    IndexOfJoin(a, c, b);
    var s := a + [c] + b;
    assert s[..|a|] == a && s[|a|+1..] == b;
    assert |Cut(s, c).0| == IndexOf(s, c);
  }

  lemma JoinedApart(a: string, c: char, b: string, a': string, b': string)
    requires c !in a && c !in a' && a + [c] + b == a' + [c] + b'
    ensures a == a' && b == b'
  {
    CutJoined(a, c, b);
    CutJoined(a', c, b');
  }
}
