/** The glob a RESP server walks its keys with: stars, question marks, classes and escapes, on which
    cache/core/drop.go relies and which it does not escape. */
module Globs {

  /** A class, from after its opening: whether it holds c, or `hit` says it did before, and what
      follows it. One that is never closed goes on to the end. */
  function Class(p: string, c: char, hit: bool): (r: (bool, string))
    ensures |r.1| <= |p|
  {
    if p == "" then (hit, "")
    else if p[0] == '\\' && |p| >= 2 then Class(p[2..], c, hit || p[1] == c)
    else if p[0] == ']' then (hit, p[1..])
    else if |p| >= 3 && p[1] == '-' then
      Class(p[3..], c, hit || p[0] <= c <= p[2] || p[2] <= c <= p[0])
    else Class(p[1..], c, hit || p[0] == c)
  }

  predicate Negated(p: string) { |p| >= 2 && p[1] == '^' }

  function Bracket(p: string, c: char): (bool, string)
    requires p != ""
  {
    Class(if Negated(p) then p[2..] else p[1..], c, false)
  }

  predicate Match(p: string, s: string)
    decreases |p| + |s|
  {
    if p == "" then s == ""
    else if p[0] == '*' then Match(p[1..], s) || (s != "" && Match(p, s[1..]))
    else if s == "" then false
    else if p[0] == '?' then Match(p[1..], s[1..])
    else if p[0] == '[' then
      var (hit, rest) := Bracket(p, s[0]);
      hit != Negated(p) && Match(rest, s[1..])
    else if p[0] == '\\' && |p| >= 2 then p[1] == s[0] && Match(p[2..], s[1..])
    else p[0] == s[0] && Match(p[1..], s[1..])
  }

  predicate Wild(c: char) { c == '*' || c == '?' }

  predicate Special(c: char) { Wild(c) || c == '[' || c == '\\' }

  predicate Plain(s: string) { forall c | c in s :: !Special(c) }

  lemma {:induction false} StarMatches(s: string)
    ensures Match("*", s)
  {
    if s == "" { assert Match("*"[1..], s); } else { StarMatches(s[1..]); }
  }

  /** What is plain at the head of a pattern stands for itself. */
  lemma {:induction false} PlainHead(head: string, p: string, s: string)
    requires Plain(head)
    ensures Match(head + p, s) <==> head <= s && Match(p, s[|head|..])
  {
    if head == "" {
      assert head + p == p && s[0..] == s;
    } else {
      assert (head + p)[1..] == head[1..] + p && head[0] in head;
      if s != "" {
        PlainHead(head[1..], p, s[1..]);
        assert head == [head[0]] + head[1..] && s == [s[0]] + s[1..];
        assert head[1..] <= s[1..] ==> s[1..][|head|-1..] == s[|head|..];
      }
    }
  }

  /** Without a special character in it, a head and a star match exactly what begins with the
      head. */
  lemma HeadMatches(head: string, s: string)
    requires Plain(head)
    ensures Match(head + "*", s) <==> head <= s
  {
    PlainHead(head, "*", s);
    if head <= s { StarMatches(s[|head|..]); }
  }

  /** A star stands for at least one character if the rest of the pattern matches after it. */
  lemma StarTakes(p: string, s: string)
    requires p != "" && p[0] == '*' && s != "" && Match(p, s[1..])
    ensures Match(p, s)
  {
  }

  /** What follows a class is nothing, or follows a closing bracket. */
  lemma {:induction false} ClassRest(p: string, c: char, hit: bool) returns (j: nat)
    ensures var rest := Class(p, c, hit).1;
            j <= |p| && rest == p[j..] && (rest == "" || (j > 0 && p[j-1] == ']'))
  {
    if p == "" {
      j := 0;
    } else if p[0] == '\\' && |p| >= 2 {
      j := ClassRest(p[2..], c, hit || p[1] == c);
      j := j + 2;
    } else if p[0] == ']' {
      j := 1;
    } else if |p| >= 3 && p[1] == '-' {
      j := ClassRest(p[3..], c, hit || p[0] <= c <= p[2] || p[2] <= c <= p[0]);
      j := j + 3;
    } else {
      j := ClassRest(p[1..], c, hit || p[0] == c);
      j := j + 1;
    }
  }

  /** Before a tail with no closing bracket in it, a class ends inside what it began in, or nowhere. */
  lemma ClassTakes(n: string, tail: string, c: char) returns (k: nat)
    requires n != "" && n[0] == '[' && ']' !in tail
    ensures var rest := Bracket(n + tail, c).1; rest == "" || (2 <= k <= |n| && rest == n[k..] + tail)
  {
    var p := n + tail;
    var off := if Negated(p) then 2 else 1;
    var q := p[off..];
    var j := ClassRest(q, c, false);
    k := off + j;
    assert q[j..] == p[k..];
    if Bracket(p, c).1 != "" {
      assert q[j-1] == p[k-1];
      assert forall i | |n| <= i < |p| :: p[i] in tail;
      assert p[k..] == n[k..] + tail;
    }
  }
}
