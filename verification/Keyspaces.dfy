/** The key names of cache/core/keyspace.go, and what they keep apart. */
module Keyspaces {
  import opened Wrappers
  import opened Text

  const COLON: char := ':'

  function Digit(d: nat): char
    requires d < 10
  {
    "0123456789"[d]
  }

  /** strconv.Itoa of an index, which is never negative. */
  function Itoa(n: nat): (s: string)
    ensures |s| > 0 && COLON !in s
  {
    if n < 10 then [Digit(n)] else Itoa(n / 10) + [Digit(n % 10)]
  }

  lemma {:induction false} ItoaApart(m: nat, n: nat)
    ensures Itoa(m) == Itoa(n) <==> m == n
    decreases m
  {
    var a, b := Itoa(m), Itoa(n);
    if a == b && m != n {
      assert a[|a|-1] == Digit(m % 10) && b[|b|-1] == Digit(n % 10);
      if m >= 10 && n >= 10 {
        assert a[..|a|-1] == Itoa(m / 10) && b[..|b|-1] == Itoa(n / 10);
        ItoaApart(m / 10, n / 10);
      }
    }
  }

  function NewKeyspace(prefix: string, namespace: string, db: nat, embedDB: bool): string {
    var base := if prefix != "" then prefix + ":" else "";
    var base := if namespace != "" then base + namespace + ":" else base;
    var base := if embedDB then base + "db" + Itoa(db) + ":" else base;
    base + "cache:"
  }

  /** CheckNamespace. */
  predicate CanName(name: string) { name != "" && COLON !in name }

  /** The ways to select a database. Its index is in the keys only where the backend has no
      databases of its own. */
  datatype Database = Named(name: string) | Numbered(index: nat, embedded: bool)

  predicate Legal(d: Database) { d.Named? ==> CanName(d.name) }

  function Head(prefix: string, d: Database): string {
    match d
    case Named(name) => NewKeyspace(prefix, name, 0, false)
    case Numbered(index, embedded) => NewKeyspace(prefix, "", index, embedded)
  }

  /** The segment a database has to itself, if it has one. */
  function Segment(d: Database): Option<string> {
    match d
    case Named(name) => Some(name)
    case Numbered(index, embedded) => if embedded then Some("db" + Itoa(index)) else None
  }

  datatype Strategy = Document | Volatile | Indexed | Aside

  function StrategyName(s: Strategy): string {
    match s
    case Document => "doc"
    case Volatile => "vol"
    case Indexed => "idx"
    case Aside => "aside"
  }

  /** What a key is for. */
  datatype Place =
    | Entry(of: Strategy, id: string)
    | Members(of: Strategy)
    | By(field: string, value: string)
    | Fields(id: string)
    | Raw(name: string)
    | Lock(id: string)

  predicate Used(p: Place) {
    && (p.Entry? ==> p.of != Volatile)
    && (p.Members? ==> p.of == Document || p.of == Indexed)
  }

  function StrategyOf(p: Place): Strategy {
    match p
    case Entry(s, _) => s
    case Members(s) => s
    case By(_, _) => Indexed
    case Fields(_) => Indexed
    case Raw(_) => Volatile
    case Lock(_) => Aside
  }

  function Tail(p: Place): string {
    match p
    case Entry(_, id) => "entry:" + id
    case Members(_) => "index"
    case By(field, value) => "by:" + field + ":" + value
    case Fields(id) => "fields:" + id
    case Raw(name) => name
    case Lock(id) => "lock:" + id
  }

  /** The key itself, as a strategy over a database renders it. */
  function Key(prefix: string, d: Database, p: Place): string {
    Head(prefix, d) + StrategyName(StrategyOf(p)) + ":" + Tail(p)
  }

  /** The names as the keyspace documents them, below the head of a database: an entry, the ids, what
      is filed under a field, a record of filings, a value a caller names, and a lock. */
  lemma AsDocumented(prefix: string, d: Database, id: string, field: string, value: string)
    ensures var head := Head(prefix, d);
            && Key(prefix, d, Entry(Document, id)) == head + "doc:entry:" + id && Key(prefix, d, Members(Document)) == head + "doc:index"
            && Key(prefix, d, Raw(id)) == head + "vol:" + id
            && Key(prefix, d, Entry(Indexed, id)) == head + "idx:entry:" + id && Key(prefix, d, Members(Indexed)) == head + "idx:index"
            && Key(prefix, d, By(field, value)) == head + "idx:by:" + field + ":" + value
            && Key(prefix, d, Fields(id)) == head + "idx:fields:" + id
            && Key(prefix, d, Entry(Aside, id)) == head + "aside:entry:" + id && Key(prefix, d, Lock(id)) == head + "aside:lock:" + id
  {
    hide Head;
    Laid(Head(prefix, d), "doc", "entry:", "doc:entry:", id);
    Laid(Head(prefix, d), "idx", "entry:", "idx:entry:", id);
    Laid(Head(prefix, d), "idx", "fields:", "idx:fields:", id);
    Laid(Head(prefix, d), "aside", "entry:", "aside:entry:", id);
    Laid(Head(prefix, d), "aside", "lock:", "aside:lock:", id);
    Laid(Head(prefix, d), "doc", "index", "doc:index", "");
    Laid(Head(prefix, d), "idx", "index", "idx:index", "");
    Laid(Head(prefix, d), "vol", "", "vol:", id);
    Laid(Head(prefix, d), "idx", "by:", "idx:by:", field + ":" + value);
    Associates(Head(prefix, d) + "idx:by:", field, ":", value);
    assert "by:" + field + ":" + value == "by:" + (field + ":" + value);
  }

  /** The heads written out in cache/core/keyspace_test.go. */
  lemma HeadsAsWritten()
    ensures Head("", Named("orders")) == "orders:cache:" && Head("app", Named("orders")) == "app:orders:cache:"
    ensures Head("app", Numbered(0, false)) == "app:cache:" && Head("app", Numbered(3, true)) == "app:db3:cache:"
    ensures Head("", Numbered(0, false)) == "cache:"
  {
    assert "orders" + ":" + "cache:" == "orders:cache:";
    assert "app" + ":" + "orders" + ":" + "cache:" == "app:orders:cache:";
    assert "app" + ":" + "cache:" == "app:cache:";
    assert Itoa(3) == "3";
    assert "app" + ":" + "db" + "3" + ":" + "cache:" == "app:db3:cache:";
  }

  lemma Laid(head: string, strategy: string, kind: string, joined: string, rest: string)
    requires joined == strategy + ":" + kind
    ensures head + strategy + ":" + (kind + rest) == head + joined + rest
    ensures rest == "" ==> kind + rest == kind && head + joined + rest == head + joined
    ensures kind == "" ==> kind + rest == rest
  {
    Associates(head, strategy, ":", kind + rest);
    Associates(head, strategy + ":", kind, rest);
  }

  /** What follows the prefix in a key: the segment if there is one, then "cache", then the
      strategy, each joined by a colon. */
  function Below(d: Database, rest: string): string {
    match Segment(d)
    case Some(seg) => seg + [COLON] + ("cache" + [COLON] + rest)
    case None => "cache" + [COLON] + rest
  }

  function Front(prefix: string): string { if prefix != "" then prefix + ":" else "" }

  function Rest(p: Place): string { StrategyName(StrategyOf(p)) + [COLON] + Tail(p) }

  lemma HeadIs(prefix: string, d: Database, rest: string)
    requires Legal(d)
    ensures Head(prefix, d) + rest == Front(prefix) + Below(d, rest)
  {
    match d {
      case Named(name) =>
      case Numbered(index, embedded) =>
        if embedded { assert "db" + Itoa(index) != ""; }
    }
  }

  lemma KeyIs(prefix: string, d: Database, p: Place)
    requires Legal(d)
    ensures Key(prefix, d, p) == Front(prefix) + Below(d, Rest(p))
  {
    HeadIs(prefix, d, Rest(p));
    Associates(Head(prefix, d), StrategyName(StrategyOf(p)), ":", Tail(p));
  }

  lemma Associates(a: string, b: string, c: string, d: string)
    ensures a + b + c + d == a + (b + c + d)
  {
  }

  lemma SegmentIsPlain(d: Database)
    requires Legal(d)
    ensures Segment(d).Some? ==> COLON !in Segment(d).value
  {
  }

  /** Two databases' keys agree below the prefix only in one segment, and then in all the rest. */
  lemma BelowApart(a: Database, x: string, b: Database, y: string)
    requires Legal(a) && Legal(b) && Below(a, x) == Below(b, y)
    ensures Segment(a) == Segment(b) ==> x == y
    ensures Segment(a).Some? && Segment(b).Some? ==> Segment(a) == Segment(b)
    ensures Segment(a).Some? && Segment(b).None? ==> Segment(a) == Some("cache") && y == "cache" + [COLON] + x
  {
    SegmentIsPlain(a);
    SegmentIsPlain(b);
    var under := (z: string) => "cache" + [COLON] + z;
    var a0 := if Segment(a).Some? then Segment(a).value else "cache";
    var b0 := if Segment(b).Some? then Segment(b).value else "cache";
    JoinedApart(a0, COLON, if Segment(a).Some? then under(x) else x, b0, if Segment(b).Some? then under(y) else y);
    assert |under(x)| == |x| + 6 && under(x)[6..] == x && under(y)[6..] == y;
  }

  /** The first letter says the kind, and a fixed number of characters on the rest begins. */
  lemma TailIs(p: Place)
    ensures var s := Tail(p);
            match p
            case Entry(_, id) => |s| >= 6 && s[0] == 'e' && s[6..] == id
            case Members(_) => |s| == 5 && s[0] == 'i'
            case Fields(id) => |s| >= 7 && s[0] == 'f' && s[7..] == id
            case Lock(id) => |s| >= 5 && s[0] == 'l' && s[5..] == id
            case By(field, value) => |s| >= 3 && s[0] == 'b' && s[3..] == field + [COLON] + value
            case Raw(_) => true
  {
  }

  lemma PlaceApart(p: Place, q: Place)
    requires Used(p) && Used(q) && Rest(p) == Rest(q)
    requires p.By? ==> COLON !in p.field
    requires q.By? ==> COLON !in q.field
    ensures p == q
  {
    JoinedApart(StrategyName(StrategyOf(p)), COLON, Tail(p), StrategyName(StrategyOf(q)), Tail(q));
    assert StrategyOf(p) == StrategyOf(q);
    TailIs(p);
    TailIs(q);
    if p.By? && q.By? { JoinedApart(p.field, COLON, p.value, q.field, q.value); }
  }

  /** A key says which database's it is, which strategy's, of which kind, and the id, or the field
      and value: two are the same exactly when all of that is. Databases are told apart by their
      segments, so a number in the keys and a name that spells it are one database. */
  lemma SameKey(prefix: string, a: Database, p: Place, b: Database, q: Place)
    requires Legal(a) && Legal(b) && Used(p) && Used(q)
    requires p.By? ==> COLON !in p.field
    requires q.By? ==> COLON !in q.field
    ensures Key(prefix, a, p) == Key(prefix, b, q) <==> Segment(a) == Segment(b) && p == q
  {
    KeyIs(prefix, a, p);
    KeyIs(prefix, b, q);
    if Key(prefix, a, p) == Key(prefix, b, q) {
      var n := |Front(prefix)|;
      assert (Front(prefix) + Below(a, Rest(p)))[n..] == Below(a, Rest(p));
      assert (Front(prefix) + Below(b, Rest(q)))[n..] == Below(b, Rest(q));
      BelowApart(a, Rest(p), b, Rest(q));
      BelowApart(b, Rest(q), a, Rest(p));
      NotCache(p);
      NotCache(q);
      if Segment(a).Some? && Segment(b).None? { assert false; }
      if Segment(a).None? && Segment(b).Some? { assert false; }
      PlaceApart(p, q);
    }
  }

  /** No strategy is called "cache". */
  lemma NotCache(p: Place)
    ensures forall x: string :: Rest(p) != "cache" + [COLON] + x
  {
    forall x: string ensures Rest(p) != "cache" + [COLON] + x {
      if Rest(p) == "cache" + [COLON] + x {
        JoinedApart(StrategyName(StrategyOf(p)), COLON, Tail(p), "cache", x);
      }
    }
  }

  /** Databases share a segment exactly when they are one, both are numbers left to the connection,
      or one is an embedded number and the other a name that spells it. */
  lemma SameSegment(a: Database, b: Database)
    ensures Segment(a) == Segment(b) <==>
              || a == b
              || (a.Numbered? && b.Numbered? && !a.embedded && !b.embedded)
              || (a.Numbered? && a.embedded && b == Named("db" + Itoa(a.index)))
              || (b.Numbered? && b.embedded && a == Named("db" + Itoa(b.index)))
  {
    if a.Numbered? && b.Numbered? && a.embedded && b.embedded {
      ItoaApart(a.index, b.index);
      assert ("db" + Itoa(a.index))[2..] == Itoa(a.index) && ("db" + Itoa(b.index))[2..] == Itoa(b.index);
    }
  }

  /** A database without a segment of its own, under a prefix that is another's with its segment. */
  predicate Absorbs(p: string, a: Database, q: string, b: Database) {
    Segment(a).None? && Segment(b).Some? && p == if q == "" then Segment(b).value else q + ":" + Segment(b).value
  }

  function Mine(d: Database): string { if Segment(d).Some? then Segment(d).value + ":" else "" }

  lemma HeadIsFront(prefix: string, d: Database)
    requires Legal(d)
    ensures Head(prefix, d) == Front(prefix) + Mine(d) + "cache:"
  {
    HeadIs(prefix, d, "");
    assert Head(prefix, d) + "" == Head(prefix, d);
    assert Front(prefix) + Below(d, "") == Front(prefix) + Mine(d) + "cache:";
  }

  /** A front ends in the last colon, if it is not empty. */
  lemma LastColon(p: string, s: string)
    requires COLON !in s
    ensures var x, n := Front(p) + s, |Front(p)|;
            (n > 0 ==> x[n-1] == COLON) && forall i | n <= i < |x| :: x[i] != COLON
  {
    var x, n := Front(p) + s, |Front(p)|;
    assert forall i | n <= i < |x| :: x[i] == s[i-n];
  }

  lemma FrontsApart(p: string, s: string, q: string, t: string)
    requires COLON !in s && COLON !in t && Front(p) + s == Front(q) + t
    ensures p == q && s == t
  {
    var f, g := Front(p), Front(q);
    LastColon(p, s);
    LastColon(q, t);
    assert (f + s)[..|f|] == f && (g + t)[..|g|] == g;
    assert (f + s)[|f|..] == s && (g + t)[|g|..] == t;
    assert p != "" ==> f[..|p|] == p;
    assert q != "" ==> g[..|q|] == q;
  }

  /** Heads under any two prefixes are the same exactly when prefix and segment are, or one database
      has no segment and its prefix is the other's with its segment. Two names are so apart,
      whatever their prefixes. */
  lemma SameHead(p: string, a: Database, q: string, b: Database)
    requires Legal(a) && Legal(b)
    ensures Head(p, a) == Head(q, b) <==> (p == q && Segment(a) == Segment(b)) || Absorbs(p, a, q, b) || Absorbs(q, b, p, a)
  {
    HeadIsFront(p, a);
    HeadIsFront(q, b);
    SegmentIsPlain(a);
    SegmentIsPlain(b);
    var x, y := Front(p) + Mine(a), Front(q) + Mine(b);
    assert (x + "cache:")[..|x|] == x && (y + "cache:")[..|y|] == y;
    SameFronts(p, a, q, b);
    SameFronts(q, b, p, a);
  }

  lemma SameFronts(p: string, a: Database, q: string, b: Database)
    requires Legal(a) && Legal(b)
    ensures Segment(b).Some? ==>
              (Front(p) + Mine(a) == Front(q) + Mine(b) <==> (p == q && Segment(a) == Segment(b)) || Absorbs(p, a, q, b))
    ensures Segment(a).None? && Segment(b).None? ==> (Front(p) + Mine(a) == Front(q) + Mine(b) <==> p == q)
  {
    SegmentIsPlain(a);
    SegmentIsPlain(b);
    var x, y := Front(p) + Mine(a), Front(q) + Mine(b);
    if Segment(b).Some? {
      var t := Segment(b).value;
      assert y == Front(q) + t + ":" && y[..|y|-1] == Front(q) + t;
      if Segment(a).Some? {
        var s := Segment(a).value;
        assert x == Front(p) + s + ":" && x[..|x|-1] == Front(p) + s;
        if x == y { FrontsApart(p, s, q, t); }
      } else {
        assert p != "" ==> x == p + ":" && x[..|x|-1] == p;
        assert q == "" ==> Front(q) + t == t;
        assert t != "";
      }
    } else if Segment(a).None? {
      assert x == Front(p) + "" && y == Front(q) + "";
      if x == y { FrontsApart(p, "", q, ""); }
    }
  }

  predicate Joins(f: string, v: string, joined: string) { f + [COLON] + v == joined }

  lemma JoinIsAmbiguous(field: string, value: string)
    ensures (exists f, v :: (f, v) != (field, value) && Joins(f, v, field + [COLON] + value))
            <==> COLON in field || COLON in value
  {
    var joined := field + [COLON] + value;
    if COLON in field {
      var i :| 0 <= i < |field| && field[i] == COLON;
      assert joined[i] == COLON && |joined[..i]| < |field|;
      assert Joins(joined[..i], joined[i+1..], joined);
    } else if COLON in value {
      var i :| 0 <= i < |value| && value[i] == COLON;
      var j := |field| + 1 + i;
      assert joined[j] == COLON && |joined[..j]| > |field|;
      assert Joins(joined[..j], joined[j+1..], joined);
    } else {
      assert forall k | 0 <= k < |field| :: joined[k] == field[k] && field[k] in field;
      assert forall k | |field| < k < |joined| :: joined[k] == value[k-|field|-1] && value[k-|field|-1] in value;
      forall f, v | Joins(f, v, joined) ensures f == field && v == value {
        assert joined[|f|] == COLON;
        assert joined[..|f|] == f && joined[|f|+1..] == v;
        assert joined[..|field|] == field && joined[|field|+1..] == value;
      }
    }
  }

  /** A field and value share their key with another pair exactly when there is a colon in either. */
  lemma ByIsAmbiguous(prefix: string, d: Database, field: string, value: string)
    ensures (exists f, v :: (f, v) != (field, value) && Key(prefix, d, By(f, v)) == Key(prefix, d, By(field, value)))
            <==> COLON in field || COLON in value
  {
    JoinIsAmbiguous(field, value);
    forall f, v ensures Key(prefix, d, By(f, v)) == Key(prefix, d, By(field, value)) <==> Joins(f, v, field + [COLON] + value) {
      ByKey(prefix, d, f, v, field, value);
    }
  }

  lemma ByKey(prefix: string, d: Database, f: string, v: string, f': string, v': string)
    ensures Key(prefix, d, By(f, v)) == Key(prefix, d, By(f', v')) <==> f + [COLON] + v == f' + [COLON] + v'
  {
    var h := Head(prefix, d) + "idx" + ":";
    var x, y := f + [COLON] + v, f' + [COLON] + v';
    assert Tail(By(f, v)) == "by:" + x && Tail(By(f', v')) == "by:" + y;
    assert Key(prefix, d, By(f, v)) == h + ("by:" + x);
    assert Key(prefix, d, By(f', v')) == h + ("by:" + y);
    assert (h + ("by:" + x))[|h|..] == "by:" + x && (h + ("by:" + y))[|h|..] == "by:" + y;
    assert ("by:" + x)[3..] == x && ("by:" + y)[3..] == y;
  }

  /** A key begins with a named database's head exactly when it is that database's key. */
  lemma HeadOwns(prefix: string, name: string, d: Database, p: Place)
    requires CanName(name) && Legal(d)
    ensures Head(prefix, Named(name)) <= Key(prefix, d, p) <==> Segment(d) == Some(name)
  {
    var head, key := Head(prefix, Named(name)), Key(prefix, d, p);
    KeyIs(prefix, d, p);
    if Segment(d) == Some(name) {
      HeadIs(prefix, Named(name), Rest(p));
      assert key == head + Rest(p);
    }
    if head <= key {
      var rest := key[|head|..];
      HeadIs(prefix, Named(name), rest);
      assert key == head + rest;
      var n := |Front(prefix)|;
      assert (Front(prefix) + Below(Named(name), rest))[n..] == Below(Named(name), rest);
      assert (Front(prefix) + Below(d, Rest(p)))[n..] == Below(d, Rest(p));
      BelowApart(Named(name), rest, d, Rest(p));
      NotCache(p);
    }
  }
}
