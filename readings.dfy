/** The reading history: sensor readings stamped on arrival and kept in a
    bounded, insertion-ordered buffer of the most recent `Capacity` entries,
    together with the dashboard's read side over it. */
module Readings {
  import opened JsValues

  /** At most this many readings are kept. */
  const Capacity: nat := 100
  /** The dashboard shows at most this many of the newest readings. */
  const RecentCount: nat := 10
  /** The property that carries a reading's arrival time in milliseconds. */
  const TimestampKey: string := "timestamp"

  function Min(a: int, b: int): int { if a <= b then a else b }

  /** The last `min(n, |s|)` elements of `s`, oldest first. */
  function Newest<T>(s: seq<T>, n: nat): seq<T> {
    s[|s| - Min(n, |s|)..]
  }

  /** A reading after it has been accepted: a falsy `timestamp` (absent, null,
      0, false, "" or NaN) is replaced by the arrival time `now`, read from the
      clock by the caller; everything else is left as it came. */
  function Stamp(body: Record, now: int): (r: Record)
    ensures Truthy(Lookup(body, TimestampKey)) ==> r == body
    ensures !Truthy(Lookup(body, TimestampKey)) ==> Lookup(r, TimestampKey) == Num(now as real)
    ensures forall k :: k != TimestampKey ==> Lookup(r, k) == Lookup(body, k)
    ensures !Truthy(Lookup(body, TimestampKey)) ==> r.Keys == body.Keys + {TimestampKey}
  {
    if Truthy(Lookup(body, TimestampKey)) then body
    else body[TimestampKey := Num(now as real)]
  }

  /** Provided the clock does not read 0, every accepted reading carries a truthy timestamp. */
  lemma StampedHasTimestamp(body: Record, now: int)
    requires now != 0
    ensures Truthy(Lookup(Stamp(body, now), TimestampKey))
  {
  }

  /** Pushing one reading, then dropping the front element if the buffer has
      grown past its capacity. */
  function Appended(h: seq<Record>, r: Record): (h': seq<Record>)
    ensures |h| < Capacity ==> h' == h + [r]
    ensures |h| >= Capacity ==> h' == h[1..] + [r]
    ensures |h| <= Capacity ==> |h'| == Min(|h| + 1, Capacity)
    ensures |h'| > 0 && h'[|h'| - 1] == r
  {
    var pushed := h + [r];
    if |pushed| > Capacity then pushed[1..] else pushed
  }

  /** The history after appending the readings `rs` one by one, in order. */
  function AppendAll(h: seq<Record>, rs: seq<Record>): seq<Record>
    decreases |rs|
  {
    if rs == [] then h else AppendAll(Appended(h, rs[0]), rs[1..])
  }

  /** Starting from a history within capacity, after `|rs|` appends the length
      is `min(|h| + |rs|, Capacity)`; in particular it never exceeds `Capacity`. */
  lemma {:induction false} AppendAllLength(h: seq<Record>, rs: seq<Record>)
    requires |h| <= Capacity
    ensures |AppendAll(h, rs)| == Min(|h| + |rs|, Capacity)
    decreases |rs|
  {
    if rs != [] {
      AppendAllLength(Appended(h, rs[0]), rs[1..]);
    }
  }

  /** From the empty history, k appends leave `min(k, Capacity)` readings. */
  lemma AppendsFromEmptyLength(rs: seq<Record>)
    ensures |AppendAll([], rs)| == Min(|rs|, Capacity)
  {
    AppendAllLength([], rs);
  }

  /** Dropping the front of a sequence longer than `n` does not change its newest `n`
      elements, whatever follows it. */
  lemma NewestDropFront(s: seq<Record>, t: seq<Record>, n: nat)
    requires |s| > n
    ensures Newest(s[1..] + t, n) == Newest(s + t, n)
  {
    assert s[1..] + t == (s + t)[1..];
  }

  /** FIFO eviction: the history is at all times the newest `Capacity` readings
      of everything ever appended, in arrival order. */
  lemma {:induction false} AppendAllKeepsNewest(h: seq<Record>, rs: seq<Record>)
    requires |h| <= Capacity
    ensures AppendAll(h, rs) == Newest(h + rs, Capacity)
    decreases |rs|
  {
    if rs == [] {
      assert h + rs == h;
    } else {
      var h1 := Appended(h, rs[0]);
      AppendAllKeepsNewest(h1, rs[1..]);
      assert h + rs == (h + [rs[0]]) + rs[1..];
      if |h| < Capacity {
        assert h1 == h + [rs[0]];
        assert h1 + rs[1..] == h + rs;
      } else {
        assert h1 == (h + [rs[0]])[1..];
        NewestDropFront(h + [rs[0]], rs[1..], Capacity);
      }
    }
  }

  /** Appending `Capacity + 1` readings to an empty history evicts exactly the
      first of them when it occurs only once, and keeps all the others in order. */
  lemma OldestEvicted(rs: seq<Record>)
    requires |rs| == Capacity + 1
    requires rs[0] !in rs[1..]
    ensures AppendAll([], rs) == rs[1..]
    ensures rs[0] !in AppendAll([], rs)
  {
    AppendAllKeepsNewest([], rs);
    assert [] + rs == rs;
  }

  /** `slice(-RecentCount)`: the newest `RecentCount` readings, oldest first. */
  function Recent(h: seq<Record>): (r: seq<Record>)
    ensures |r| == Min(RecentCount, |h|)
    ensures forall i :: 0 <= i < |r| ==> r[i] == h[|h| - |r| + i]
    ensures h == h[..|h| - |r|] + r
  {
    Newest(h, RecentCount)
  }

  /** The dashboard's current reading: the last of the recent readings, or `{}`
      when there is none. A stored reading is an object and so always truthy,
      hence `|| {}` only applies to an empty history. */
  function Current(h: seq<Record>): (r: Record)
    ensures h == [] ==> r == map[]
    ensures h != [] ==> r == h[|h| - 1]
  {
    var recent := Recent(h);
    if |recent| == 0 then map[] else recent[|recent| - 1]
  }

  /** Tail correctness: after any appends from the empty history, the recent
      readings are the newest `RecentCount` of those appended, in order. */
  lemma RecentAfterAppends(rs: seq<Record>)
    ensures Recent(AppendAll([], rs)) == Newest(rs, RecentCount)
  {
    AppendAllKeepsNewest([], rs);
    assert [] + rs == rs;
  }

  /** Right after an append the current reading is the one just appended, and
      it closes the recent list. */
  lemma CurrentAfterAppend(h: seq<Record>, r: Record)
    ensures Current(Appended(h, r)) == r
    ensures Recent(Appended(h, r))[|Recent(Appended(h, r))| - 1] == r
  {
  }
}
