/** The frame of cache/core/envelope.go and the deadlines of cache/core/loader.go. Times are in
    nanoseconds; the frame's deadline is in milliseconds. A value is its JSON. */
module Envelopes {

  const MILLISECOND: int := 1_000_000
  const SECOND: int := 1000 * MILLISECOND

  function UnixMilli(t: int): int { t / MILLISECOND }

  /** omitempty leaves a field of its zero value out; decoding puts it back. */
  datatype Envelope = Envelope(value: string, deadline: int, void: bool)

  datatype Options = Options(ttl: int, stale: int, permanent: bool)

  /** freshness: the deadline for the frame and the expiry for the store. */
  function Freshness(o: Options): (int, int) {
    if o.ttl <= 0 then (0, 0)
    else if o.stale <= 0 then (0, o.ttl)
    else (o.ttl, o.ttl + o.stale)
  }

  function Pack(value: string, window: int, now: int): Envelope {
    Envelope(value, if window > 0 then UnixMilli(now + window) else 0, false)
  }

  function PackVoid(): Envelope { Envelope("", 0, true) }

  datatype Unpacked = Unpacked(value: string, stale: bool, void: bool)

  function Unpack(e: Envelope, now: int): Unpacked {
    if e.void then Unpacked("", false, true)
    else if e.deadline == 0 then Unpacked(e.value, false, false)
    else Unpacked(e.value, UnixMilli(now) > e.deadline, false)
  }

  /** unpack gives back what pack was given, at any later time, and never takes an absence for a
      value or a value for an absence. */
  lemma UnpackUndoesPack(value: string, window: int, packed: int, now: int)
    ensures Unpack(Pack(value, window, packed), now).value == value && !Unpack(Pack(value, window, packed), now).void
    ensures Unpack(PackVoid(), now).void && Pack(value, window, packed) != PackVoid()
  {
  }

  /** A value is stale exactly when the clock is a whole millisecond count past the deadline it was
      given: never before the deadline, always a millisecond after it. A deadline in the very
      first millisecond of 1970 reads as none. */
  lemma StaleExactly(value: string, window: int, packed: int, now: int)
    ensures var u := Unpack(Pack(value, window, packed), now);
            && (u.stale <==> window > 0 && UnixMilli(packed + window) != 0 && UnixMilli(now) > UnixMilli(packed + window))
            && (u.stale ==> now > packed + window)
            && (window > 0 && UnixMilli(packed + window) != 0 && now >= packed + window + MILLISECOND ==> u.stale)
  {
    var deadline := packed + window;
    assert deadline == MILLISECOND * UnixMilli(deadline) + deadline % MILLISECOND;
    assert now == MILLISECOND * UnixMilli(now) + now % MILLISECOND;
  }
}
