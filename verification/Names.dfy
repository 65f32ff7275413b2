/** The derived names of events/cloudevents.go and events/store.go. SHA-256 is a parameter: a
    function to 32 hex digits. Where a lemma needs it not to collide, it says on which strings. */
module Names {
  import Text

  const NUL: char := '\0'
  const SEPARATOR: string := "/deliveries/"

  /** What digest hashes: its two parts, joined by a NUL. */
  function Joined(a: string, b: string): string { a + [NUL] + b }

  function EventID(hash: string -> string, name: string, etag: string): string {
    hash(Joined(name, etag))
  }

  function DeliveryName(hash: string -> string, webhook: string, eventID: string): string
    requires |hash(Joined(webhook, eventID))| == 32
  {
    webhook + SEPARATOR + "d" + hash(Joined(webhook, eventID))[..31]
  }

  predicate OccursAt(s: string, sub: string, i: int) {
    0 <= i <= |s| - |sub| && s[i..i+|sub|] == sub
  }

  /** strings.Index. */
  function Index(s: string, sep: string): (i: int)
    ensures i >= 0 ==> OccursAt(s, sep, i)
    ensures i < 0 ==> i == -1 && forall j :: !OccursAt(s, sep, j)
    ensures forall j | j < i :: !OccursAt(s, sep, j)
  {
    if |s| < |sep| then -1
    else if s[..|sep|] == sep then 0
    else if |s| == 0 then -1
    else
      var i := Index(s[1..], sep);
      assert forall j | j != 0 && OccursAt(s, sep, j) :: OccursAt(s[1..], sep, j - 1) by {
        forall j | j != 0 && OccursAt(s, sep, j) ensures OccursAt(s[1..], sep, j - 1) {
          assert s[1..][j-1..j-1+|sep|] == s[j..j+|sep|];
        }
      }
      assert i >= 0 ==> s[1..][i..i+|sep|] == s[i+1..i+1+|sep|];
      if i < 0 then -1 else i + 1
  }

  function WebhookOf(delivery: string): string {
    var i := Index(delivery, SEPARATOR);
    if i >= 0 then delivery[..i] else delivery
  }

  /** Neither digest, whole or cut to 31 digits, gives these two strings the same name. */
  ghost predicate Apart(hash: string -> string, x: string, y: string) {
    |hash(x)| == 32 && |hash(y)| == 32 && (hash(x)[..31] == hash(y)[..31] ==> x == y)
  }

  /** Two recordings collide on the delivery's name exactly when they are of the same version of
      the same record for the same webhook. */
  lemma SameDelivery(hash: string -> string, w1: string, n1: string, e1: string, w2: string, n2: string, e2: string)
    requires NUL !in n1 && NUL !in n2
    requires Apart(hash, Joined(n1, e1), Joined(n2, e2))
    requires Apart(hash, Joined(w1, EventID(hash, n1, e1)), Joined(w2, EventID(hash, n2, e2)))
    ensures DeliveryName(hash, w1, EventID(hash, n1, e1)) == DeliveryName(hash, w2, EventID(hash, n2, e2))
            <==> w1 == w2 && n1 == n2 && e1 == e2
  {
    var id1, id2 := EventID(hash, n1, e1), EventID(hash, n2, e2);
    var d1, d2 := DeliveryName(hash, w1, id1), DeliveryName(hash, w2, id2);
    if d1 == d2 {
      assert |d1| == |w1| + 44 && |d2| == |w2| + 44;
      assert d1[..|w1|] == w1 && d2[..|w2|] == w2;
      assert d1[|w1|+13..] == hash(Joined(w1, id1))[..31] && d2[|w2|+13..] == hash(Joined(w2, id2))[..31];
      assert Joined(w1, id1)[|w1|+1..] == id1 && Joined(w2, id2)[|w2|+1..] == id2;
      assert id1[..31] == id2[..31];
      Text.JoinedApart(n1, NUL, e1, n2, e2);
    }
  }

  ghost predicate Contains(s: string, sub: string) {
    exists i :: OccursAt(s, sub, i)
  }

  predicate EndsWith(s: string, tail: string) {
    |s| >= |tail| && s[|s|-|tail|..] == tail
  }

  /** A separator that meets itself only end to end. */
  predicate Fenced(sep: string) {
    |sep| >= 2 && sep[|sep|-1] == sep[0] && forall j | 0 < j < |sep| - 1 :: sep[j] != sep[0]
  }

  /** A separator occurs earlier than where it was put only inside what is before it, or where that
      ends in all of the separator but its last character. */
  lemma OccursEarlier(w: string, sep: string, tail: string, i: nat)
    requires Fenced(sep) && i < |w| && OccursAt(w + sep + tail, sep, i)
    ensures Contains(w, sep) || EndsWith(w, sep[..|sep|-1])
  {
    var d := w + sep + tail;
    if i + |sep| <= |w| {
      assert w[i..i+|sep|] == d[i..i+|sep|];
      assert OccursAt(w, sep, i);
    } else {
      assert d[|w|] == sep[0] && d[|w|] == d[i..i+|sep|][|w|-i];
      assert |w| - i == |sep| - 1;
      assert w[i..] == d[i..i+|sep|][..|sep|-1];
    }
  }

  lemma OccursBefore(w: string, sep: string, tail: string)
    requires Fenced(sep) && (Contains(w, sep) || EndsWith(w, sep[..|sep|-1]))
    ensures exists i :: i < |w| && OccursAt(w + sep + tail, sep, i)
  {
    var d := w + sep + tail;
    if Contains(w, sep) {
      var i :| OccursAt(w, sep, i);
      assert d[i..i+|sep|] == w[i..i+|sep|];
      assert OccursAt(d, sep, i);
    } else {
      var i := |w| - (|sep| - 1);
      assert d[|w|] == sep[0];
      assert d[i..i+|sep|] == w[i..] + [d[|w|]] == sep[..|sep|-1] + [sep[|sep|-1]] == sep;
      assert OccursAt(d, sep, i);
    }
  }

  lemma IndexOfPut(w: string, sep: string, tail: string)
    requires Fenced(sep)
    ensures var i := Index(w + sep + tail, sep);
            0 <= i <= |w| && (i == |w| <==> !Contains(w, sep) && !EndsWith(w, sep[..|sep|-1]))
  {
    var d := w + sep + tail;
    var i := Index(d, sep);
    assert d[|w|..|w|+|sep|] == sep;
    assert OccursAt(d, sep, |w|);
    if 0 <= i < |w| { OccursEarlier(w, sep, tail, i); }
    if Contains(w, sep) || EndsWith(w, sep[..|sep|-1]) { OccursBefore(w, sep, tail); }
  }

  /** WebhookOf undoes DeliveryName for exactly the webhooks whose name neither contains the
      separator nor ends in all of it but the last slash. */
  lemma WebhookOfDelivery(hash: string -> string, webhook: string, eventID: string)
    requires |hash(Joined(webhook, eventID))| == 32
    ensures WebhookOf(DeliveryName(hash, webhook, eventID)) == webhook
            <==> !Contains(webhook, SEPARATOR) && !EndsWith(webhook, SEPARATOR[..|SEPARATOR|-1])
    ensures webhook + "/deliveries/d" <= DeliveryName(hash, webhook, eventID)
    ensures |DeliveryName(hash, webhook, eventID)| == |webhook + "/deliveries/d"| + 31
  {
    var tail := "d" + hash(Joined(webhook, eventID))[..31];
    assert Fenced(SEPARATOR);
    IndexOfPut(webhook, SEPARATOR, tail);
    var d := DeliveryName(hash, webhook, eventID);
    assert d == webhook + SEPARATOR + tail;
    assert d[..|webhook|] == webhook;
    assert |WebhookOf(d)| == Index(d, SEPARATOR);
  }
}
