/** Dropping one database by its head, as in cache/core/drop.go and cache/resp/cache.go, on a server
    whose glob is that of module Globs. */
module Drops {
  import opened Wrappers
  import opened Globs
  import opened Keyspaces

  const DROP_BATCH: nat := 256

  function Pattern(prefix: string, name: string): string { Head(prefix, Named(name)) + "*" }

  lemma HeadIsPlain(prefix: string, name: string)
    requires Plain(prefix) && Plain(name)
    ensures Plain(Head(prefix, Named(name)))
  {
  }

  /** Dropping a name finds the keys of that database and of no other. */
  lemma DropFinds(prefix: string, name: string, d: Database, p: Place)
    requires Plain(prefix) && Plain(name) && CanName(name) && Legal(d)
    ensures Match(Pattern(prefix, name), Key(prefix, d, p)) <==> Segment(d) == Some(name)
  {
    HeadIsPlain(prefix, name);
    HeadMatches(Head(prefix, Named(name)), Key(prefix, d, p));
    HeadOwns(prefix, name, d, p);
  }

  ghost predicate FindsOthers(prefix: string, name: string) {
    exists d: Database, p: Place :: Legal(d) && Segment(d) != Some(name) && Match(Pattern(prefix, name), Key(prefix, d, p))
  }

  /** Dropping a name finds exactly the keys of that database. */
  ghost predicate FindsItsOwn(prefix: string, name: string) {
    forall d: Database, p: Place | Legal(d) :: Match(Pattern(prefix, name), Key(prefix, d, p)) <==> Segment(d) == Some(name)
  }

  // ---- names with special characters ------------------------------------------------------

  const TAIL: string := ":cache:*"

  function Tailed(m: string, rest: string): string { m + (":cache:" + rest) }

  lemma TailedHead(m: string, rest: string)
    requires m != ""
    ensures Tailed(m, rest) != "" && Tailed(m, rest)[0] == m[0] && Tailed(m, rest)[1..] == Tailed(m[1..], rest)
    ensures (m + TAIL)[0] == m[0] && (m + TAIL)[1..] == m[1..] + TAIL
  {
  }

  /** A plain name matches no longer one. */
  lemma PlainTooShort(n: string, m: string, rest: string)
    requires Plain(n) && COLON !in m && |n| < |m|
    ensures !Match(n + TAIL, Tailed(m, rest))
  {
    var head := n + ":cache:";
    assert n + TAIL == head + "*";
    HeadMatches(head, Tailed(m, rest));
    assert head[|n|] == COLON && Tailed(m, rest)[|n|] == m[|n|];
  }

  /** Whether a class or an escape at its head lets a name match, it takes one character of what it
      matches and more than one of its own. */
  lemma TakesMore(n: string, m: string, rest: string) returns (k: nat)
    requires n != "" && m != "" && (n[0] == '[' || n[0] == '\\') && COLON !in n && COLON !in m
    requires Match(n + TAIL, Tailed(m, rest))
    ensures 2 <= k <= |n| && Match(n[k..] + TAIL, Tailed(m[1..], rest))
    ensures forall m1 :: Match(n[k..] + TAIL, Tailed(m1, rest)) ==> Match(n + TAIL, Tailed([m[0]] + m1, rest))
  {
    var p, s := n + TAIL, Tailed(m, rest);
    TailedHead(m, rest);
    TailedHead(n, "");
    if n[0] == '[' {
      assert ']' !in TAIL;
      k := ClassTakes(n, TAIL, m[0]);
      assert Match(Bracket(p, m[0]).1, s[1..]);
    } else {
      assert p[1] == m[0] by { assert |p| >= 2; }
      assert |n| > 1;
      k := 2;
      assert p[2..] == n[2..] + TAIL;
    }
    forall m1 | Match(n[k..] + TAIL, Tailed(m1, rest)) ensures Match(p, Tailed([m[0]] + m1, rest)) {
      TailedHead([m[0]] + m1, rest);
      assert ([m[0]] + m1)[1..] == m1;
    }
  }

  /** What a name with a special character matches is never one thing alone. */
  lemma {:induction false} AnotherName(n: string, m: string, rest: string) returns (m': string)
    requires COLON !in n && COLON !in m && |m| >= |n| && !Plain(n)
    requires Match(n + TAIL, Tailed(m, rest))
    ensures m' != m && m' != "" && COLON !in m' && Match(n + TAIL, Tailed(m', rest))
    decreases |n|
  {
    TailedHead(n, "");
    TailedHead(m, rest);
    if n[0] == '*' {
      m' := "x" + m;
      TailedHead(m', rest);
      assert m'[1..] == m;
      StarTakes(n + TAIL, Tailed(m', rest));
    } else if n[0] == '?' {
      m' := [if m[0] == 'x' then 'y' else 'x'] + m[1..];
      TailedHead(m', rest);
      assert m'[1..] == m[1..];
    } else if n[0] == '[' || n[0] == '\\' {
      var k := TakesMore(n, m, rest);
      if Plain(n[k..]) { PlainTooShort(n[k..], m[1..], rest); }
      var m1 := AnotherName(n[k..], m[1..], rest);
      m' := [m[0]] + m1;
      assert m == [m[0]] + m[1..];
    } else {
      assert n == [n[0]] + n[1..];
      var m1 := AnotherName(n[1..], m[1..], rest);
      m' := [m[0]] + m1;
      TailedHead(m', rest);
      assert m'[1..] == m1 && m == [m[0]] + m[1..];
    }
  }

  lemma HeadTailed(prefix: string, name: string)
    requires CanName(name)
    ensures Pattern(prefix, name) == Front(prefix) + (name + TAIL)
    ensures Key(prefix, Named(name), Raw("")) == Front(prefix) + Tailed(name, "vol:")
  {
    var f := Front(prefix);
    assert Head(prefix, Named(name)) == f + name + ":" + "cache:";
    assert f + name + ":" + "cache:" + "*" == f + (name + TAIL);
    assert f + name + ":" + "cache:" + "vol" + ":" + "" == f + Tailed(name, "vol:");
  }

  /** A name is accepted whatever is in it, and dropping it finds exactly that database's keys if
      and only if it holds no special character: one that does misses keys of its own or finds
      another's. */
  lemma DropsExactly(prefix: string, name: string)
    requires Plain(prefix) && CanName(name)
    ensures FindsItsOwn(prefix, name) <==> Plain(name)
  {
    if Plain(name) {
      forall d: Database, p: Place | Legal(d)
        ensures Match(Pattern(prefix, name), Key(prefix, d, p)) <==> Segment(d) == Some(name)
      {
        DropFinds(prefix, name, d, p);
      }
    } else {
      NotItsOwn(prefix, name);
    }
  }

  lemma NotItsOwn(prefix: string, name: string)
    requires Plain(prefix) && CanName(name) && !Plain(name)
    ensures !FindsItsOwn(prefix, name)
  {
    hide Match;
    var f, p := Front(prefix), Raw("");
    var own := Key(prefix, Named(name), p);
    HeadTailed(prefix, name);
    PlainHead(f, name + TAIL, own);
    assert own[|f|..] == Tailed(name, "vol:");
    if Match(Pattern(prefix, name), own) {
      var other := AnotherName(name, name, "vol:");
      HeadTailed(prefix, other);
      var its := Key(prefix, Named(other), p);
      assert its[|f|..] == Tailed(other, "vol:");
      PlainHead(f, name + TAIL, its);
      assert Match(Pattern(prefix, name), its) && Segment(Named(other)) != Some(name);
    } else {
      assert Segment(Named(name)) == Some(name);
    }
  }

  lemma NamedKey(name: string, p: Place)
    requires CanName(name)
    ensures Key("", Named(name), p) == Tailed(name, Rest(p)) && Pattern("", name) == name + TAIL
  {
    hide Key, Head, Rest;
    HeadTailed("", name);
    KeyIs("", Named(name), p);
    BelowTailed(name, Rest(p));
    assert Front("") + Tailed(name, Rest(p)) == Tailed(name, Rest(p));
    assert Front("") + (name + TAIL) == name + TAIL;
  }

  lemma BelowTailed(name: string, rest: string)
    ensures Below(Named(name), rest) == Tailed(name, rest)
  {
    assert "cache" + [COLON] + rest == "cache:" + rest;
    assert [COLON] + ("cache:" + rest) == ":cache:" + rest;
    assert name + [COLON] + ("cache:" + rest) == name + ([COLON] + ("cache:" + rest));
  }

  /** Dropping "a[b]" finds the keys of "ab", and not its own. */
  lemma BracketFindsOther(p: Place)
    ensures Match(Pattern("", "a[b]"), Key("", Named("ab"), p))
    ensures !Match(Pattern("", "a[b]"), Key("", Named("a[b]"), p))
  {
    hide Match, Key, Pattern, Rest;
    NamedKey("a[b]", p);
    NamedKey("ab", p);
    var rest := ":cache:" + Rest(p);
    assert "a[b]" + TAIL == "a" + ("[b]" + TAIL);
    assert "a[b]" + rest == "a" + ("[b]" + rest) && "ab" + rest == "a" + ("b" + rest);
    PlainHead("a", "[b]" + TAIL, "a" + ("[b]" + rest));
    PlainHead("a", "[b]" + TAIL, "a" + ("b" + rest));
    BracketTakes(TAIL, "b" + rest);
    BracketTakes(TAIL, "[b]" + rest);
    assert ("b" + rest)[1..] == rest && TAIL == ":cache:" + "*";
    HeadMatches(":cache:", rest);
  }

  lemma BracketTakes(p: string, s: string)
    requires s != ""
    ensures Match("[b]" + p, s) <==> s[0] == 'b' && Match(p, s[1..])
  {
    var q := "[b]" + p;
    assert q[1..][0] == 'b' && q[1..][1..] == q[2..] && q[2..][0] == ']' && q[2..][1..] == p;
    assert Class(q[2..], s[0], s[0] == 'b') == (s[0] == 'b', p);
    assert Class(q[1..], s[0], false) == Class(q[2..], s[0], 'b' == s[0]) by { assert q[1..][1] == ']'; }
  }

  /** A wildcard in a name finds another database's keys, if nothing else in it is special. */
  lemma DropsOthersExactly(prefix: string, name: string)
    requires Plain(prefix) && CanName(name)
    ensures Plain(name) ==> !FindsOthers(prefix, name)
    ensures '[' !in name && '\\' !in name ==> (FindsOthers(prefix, name) <==> exists c :: c in name && Wild(c))
  {
    if Plain(name) {
      DropsExactly(prefix, name);
    } else if '[' !in name && '\\' !in name {
      WildFindsOthers(prefix, name);
    }
  }

  lemma {:induction false} WildMatchesItself(n: string, rest: string)
    requires '[' !in n && '\\' !in n
    ensures Match(n + TAIL, Tailed(n, rest))
  {
    if n == "" {
      assert n + TAIL == ":cache:" + "*";
      HeadMatches(":cache:", Tailed(n, rest));
    } else {
      TailedHead(n, rest);
      assert n == [n[0]] + n[1..];
      WildMatchesItself(n[1..], rest);
      if n[0] == '*' { assert (n + TAIL)[1..] == n[1..] + TAIL; StarSkips(n + TAIL, Tailed(n, rest)); }
    }
  }

  /** A star stands for exactly one character, too. */
  lemma StarSkips(p: string, s: string)
    requires p != "" && p[0] == '*' && s != "" && Match(p[1..], s[1..])
    ensures Match(p, s)
  {
    assert Match(p, s[1..]);
  }

  lemma WildFindsOthers(prefix: string, name: string)
    requires Plain(prefix) && CanName(name) && '[' !in name && '\\' !in name && !Plain(name)
    ensures FindsOthers(prefix, name)
  {
    hide Match;
    var f, p := Front(prefix), Raw("");
    WildMatchesItself(name, "vol:");
    var other := AnotherName(name, name, "vol:");
    HeadTailed(prefix, name);
    HeadTailed(prefix, other);
    var its := Key(prefix, Named(other), p);
    assert its[|f|..] == Tailed(other, "vol:");
    PlainHead(f, name + TAIL, its);
    assert Match(Pattern(prefix, name), its) && Segment(Named(other)) != Some(name) && Legal(Named(other));
  }

  function Elements(s: seq<string>): set<string> { set k | k in s }

  predicate Distinct(s: seq<string>) { forall i, j | 0 <= i < j < |s| :: s[i] != s[j] }

  /** A list names as many keys as it is long exactly when it repeats none. */
  lemma {:induction false} HowMany(s: seq<string>)
    ensures |Elements(s)| <= |s|
    ensures |Elements(s)| == |s| <==> Distinct(s)
  {
    if s != [] {
      var n := |s| - 1;
      var init := s[..n];
      HowMany(init);
      assert s == init + [s[n]];
      if s[n] in init {
        assert Elements(s) == Elements(init);
        var i :| 0 <= i < n && init[i] == s[n];
        assert s[i] == s[n];
      } else {
        assert Elements(s) == Elements(init) + {s[n]};
        assert forall i | 0 <= i < n :: s[i] == init[i];
      }
    }
  }

  lemma Went(was: set<string>, now: set<string>, gone: set<string>)
    requires gone <= was && now == was - gone
    ensures |was| - |now| == |gone|
  {
    assert now + gone == was && now !! gone;
  }

  class Server {
    /** No call fails. */
    const reliable: bool
    var keys: set<string>

    constructor (keys: set<string>, reliable: bool)
      ensures this.keys == keys && this.reliable == reliable
    {
      this.keys, this.reliable := keys, reliable;
    }

    /** Delete, of any number of keys. A call that is not heard back from may have removed them. */
    method Delete(some: seq<string>) returns (ok: bool)
      modifies this
      ensures keys == old(keys) - Elements(some) || (!ok && keys == old(keys))
      ensures reliable ==> ok
    {
      ok := *;
      ok := ok || reliable;
      var done: bool := *;
      if ok || done { keys := keys - Elements(some); }
    }

    /** Scan: every key that matches, in any order, some perhaps more than once. */
    method Scan(pattern: string) returns (found: seq<string>, ok: bool)
      ensures ok ==> Elements(found) == set k | k in keys && Match(pattern, k)
      ensures Elements(found) <= keys && (reliable ==> ok)
    {
      ok := *;
      ok := ok || reliable;
      found := [];
      var left := keys;
      while left != {}
        invariant left <= keys
        invariant Elements(found) == set k | k in keys - left && Match(pattern, k)
      {
        var k: string :| k in left;
        left := left - {k};
        if Match(pattern, k) {
          var again: bool := *;
          ghost var before := found;
          found := found + if again then [k, k] else [k];
          assert Elements(found) == Elements(before) + {k};
        }
      }
    }

    /** Drop: what matches goes and nothing else, a batch at a time. The count is of what the walk
        returned, so it is of what went exactly when the walk repeated nothing. A delete that
        failed leaves what the count says gone, in whole batches. */
    method Drop(head: string) returns (n: nat, ok: bool, ghost walked: seq<string>)
      modifies this
      ensures keys <= old(keys) && forall k | k in old(keys) && !Match(head + "*", k) :: k in keys
      ensures ok ==> keys == set k | k in old(keys) && !Match(head + "*", k)
      ensures reliable ==> ok
      ensures ok ==> Elements(walked) == set k | k in old(keys) && Match(head + "*", k)
      ensures Elements(walked) <= old(keys) && old(keys) - Elements(walked) <= keys
      ensures ok ==> n == |walked| && |old(keys)| - |keys| <= n
      ensures ok ==> (n == |old(keys)| - |keys| <==> Distinct(walked))
      ensures !ok ==> n <= |walked| && n % DROP_BATCH == 0 && forall i | 0 <= i < n :: walked[i] !in keys
    {
      hide Match, Distinct;
      var found, heard := Scan(head + "*");
      walked := found;
      if !heard { return 0, false, []; }
      var start := 0;
      while start < |found|
        invariant start % DROP_BATCH == 0 || start >= |found|
        invariant keys == old(keys) - Elements(found[..if start < |found| then start else |found|])
      {
        var end := if start + DROP_BATCH < |found| then start + DROP_BATCH else |found|;
        assert found[..end] == found[..start] + found[start..end];
        assert Elements(found[..end]) == Elements(found[..start]) + Elements(found[start..end]);
        assert Elements(found[..end]) <= Elements(found);
        assert forall i | 0 <= i < start :: found[i] in found[..start];
        var done := Delete(found[start..end]);
        if !done { return start, false, walked; }
        start := start + DROP_BATCH;
      }
      assert found[..|found|] == found;
      HowMany(found);
      Went(old(keys), keys, Elements(found));
      n, ok := |found|, true;
    }

    /** DropDatabase. */
    method DropDatabase(prefix: string, name: string) returns (n: nat, ok: bool)
      modifies this
      ensures name == "" || COLON in name ==> !ok && n == 0 && keys == old(keys)
      ensures reliable && name != "" && COLON !in name ==> ok
      ensures keys <= old(keys) && forall k | k in old(keys) && !Match(Pattern(prefix, name), k) :: k in keys
      ensures ok ==> keys == set k | k in old(keys) && !Match(Pattern(prefix, name), k)
      ensures Plain(prefix) && Plain(name) && CanName(name) ==>
                forall d: Database, p: Place | Legal(d) && Key(prefix, d, p) in old(keys) && Segment(d) != Some(name) ::
                  Key(prefix, d, p) in keys
      ensures ok ==> forall d: Database, p: Place | Legal(d) && Segment(d) == Some(name) && Plain(prefix) && Plain(name) :: Key(prefix, d, p) !in keys
    {
      if !CanName(name) { return 0, false; }
      ghost var walked;
      n, ok, walked := Drop(Head(prefix, Named(name)));
      forall d: Database, p: Place | Legal(d) && Plain(prefix) && Plain(name)
        ensures Match(Pattern(prefix, name), Key(prefix, d, p)) <==> Segment(d) == Some(name)
      {
        DropFinds(prefix, name, d, p);
      }
    }
  }
}
