/**
 * The bounded TTL dedup set of v1A: an insertion-ordered map edited in place. Its specification is a sliding window
 * over the log of fresh recordings.
 */
module DedupStore {
  /** A fresh recording: an id and when it was recorded. */
  datatype Recording = Recording(id: string, at: int)

  datatype Settings = Settings(ttlMs: int, maxEntries: int) {
    /** A store with `maxEntries <= 0` still keeps the entry it has just set. */
    function Capacity(): (n: nat)
      ensures n >= 1
    {
      if maxEntries > 1 then maxEntries else 1
    }
  }

  /** The id is among the last `Capacity` fresh recordings, and that recording is less than `ttlMs` old. */
  predicate IsDuplicate(c: Settings, log: seq<Recording>, id: string, now: int) {
    exists i :: 0 <= i < |log| && InWindow(c, log, i, now) && log[i].id == id
  }

  predicate InWindow(c: Settings, log: seq<Recording>, i: nat, now: int)
    requires i < |log|
  {
    |log| - c.Capacity() <= i && now - log[i].at < c.ttlMs
  }

  /** The log after one more call. */
  function AfterCall(c: Settings, log: seq<Recording>, id: string, now: int): seq<Recording> {
    if IsDuplicate(c, log, id, now) then log else log + [Recording(id, now)]
  }

  ghost predicate InOrder(log: seq<Recording>, i: nat, j: nat)
    requires i < |log| && j < |log|
  {
    log[i].at <= log[j].at
  }

  ghost predicate NotAfter(log: seq<Recording>, i: nat, now: int)
    requires i < |log|
  {
    log[i].at <= now
  }

  /** The clock never ran backwards, and has reached `now`. */
  ghost predicate Chronological(log: seq<Recording>, now: int) {
    && (forall i, j :: 0 <= i < j < |log| ==> InOrder(log, i, j))
    && (forall i :: 0 <= i < |log| ==> NotAfter(log, i, now))
  }

  // ---------------------------------------------------------------- the insertion-ordered map

  /** An entry of `seenAt`, oldest first. */
  datatype Entry = Entry(id: string, expiresAt: int)

  function EntryOf(c: Settings, r: Recording): Entry {
    Entry(r.id, r.at + c.ttlMs)
  }

  ghost predicate EntryAt(c: Settings, es: seq<Entry>, log: seq<Recording>, k: nat, i: nat)
    requires i < |es| && k + i < |log|
  {
    es[i] == EntryOf(c, log[k + i])
  }

  ghost predicate DifferentIds(es: seq<Entry>, i: nat, j: nat)
    requires i < |es| && j < |es|
  {
    es[i].id != es[j].id
  }

  /** The map is the log from position `k` on: at most a capacity's worth, no id twice, and every recording that is
      missing has either expired or been pushed out by newer ones. */
  ghost predicate HoldsFrom(c: Settings, es: seq<Entry>, log: seq<Recording>, k: nat, now: int) {
    && k <= |log| && |es| == |log| - k
    && (forall i :: 0 <= i < |es| ==> EntryAt(c, es, log, k, i))
    && |es| <= c.Capacity()
    && (forall i, j :: 0 <= i < j < |es| ==> DifferentIds(es, i, j))
    && (forall i :: 0 <= i < k ==> !InWindow(c, log, i, now))
  }

  /** The map is the newest part of the log. */
  ghost predicate Holds(c: Settings, es: seq<Entry>, log: seq<Recording>, now: int) {
    Chronological(log, now) && exists k: nat :: HoldsFrom(c, es, log, k, now)
  }

  predicate Has(es: seq<Entry>, id: string) {
    exists i :: 0 <= i < |es| && es[i].id == id
  }

  class Store {
    const settings: Settings
    var seenAt: seq<Entry>
    ghost var log: seq<Recording>
    ghost var clock: int  // when the store was last called

    ghost predicate Valid()
      reads this
    {
      Holds(settings, seenAt, log, clock)
    }

    constructor (c: Settings)
      ensures Valid() && settings == c && log == [] && seenAt == []
    {
      settings, seenAt, log, clock := c, [], [], 0;
      new;
      assert HoldsFrom(settings, seenAt, log, 0, clock);
    }

    /** Deletes expired entries while iterating over the map. */
    method EvictExpired(now: int)
      modifies this`seenAt
      ensures seenAt == Unexpired(old(seenAt), now)
    {
      ghost var was := seenAt;
      var i := 0;
      while i < |seenAt|
        invariant 0 <= i <= |seenAt|
        invariant seenAt[..i] + Unexpired(seenAt[i..], now) == Unexpired(was, now)
        decreases |seenAt| - i
      {
        UnexpiredStep(seenAt, i, now);
        if seenAt[i].expiresAt <= now {
          seenAt := seenAt[..i] + seenAt[i + 1..];
        } else {
          i := i + 1;
        }
      }
      assert seenAt[..i] == seenAt;
    }

    /** True exactly when the id is in the sliding window; a fresh id is recorded. */
    method CheckAndRecord(id: string, now: int) returns (duplicate: bool)
      requires Valid() && (log == [] || clock <= now)
      modifies this
      ensures Valid() && clock == now
      ensures duplicate <==> IsDuplicate(settings, old(log), id, now)
      ensures log == AfterCall(settings, old(log), id, now)
      ensures |seenAt| <= settings.Capacity()
      ensures !duplicate ==> seenAt != [] && seenAt[|seenAt| - 1] == Entry(id, now + settings.ttlMs)
    {
      CallKeeps(settings, seenAt, log, clock, id, now);
      EvictExpired(now);
      clock := now;
      duplicate := Has(seenAt, id);
      if !duplicate {
        SetFresh(id, now);
      }
    }

    /** Makes room if the map is full, then sets the fresh id; what is pushed out would have expired first. */
    method SetFresh(id: string, now: int)
      modifies this`seenAt, this`log
      ensures seenAt == Inserted(settings, old(seenAt), id, now) && log == old(log) + [Recording(id, now)]
      ensures old(Holds(settings, seenAt, log, now)) ==> DropsEarliest(old(seenAt), seenAt)
    {
      if Holds(settings, seenAt, log, now) {
        EvictsEarliest(settings, seenAt, log, id, now);
      }
      if |seenAt| >= settings.maxEntries && seenAt != [] {
        seenAt := seenAt[1..];
      }
      seenAt := seenAt + [Entry(id, now + settings.ttlMs)];
      log := log + [Recording(id, now)];
    }
  }

  // ---------------------------------------------------------------- eviction

  function Unexpired(es: seq<Entry>, now: int): seq<Entry> {
    if es == [] then [] else (if es[0].expiresAt <= now then [] else [es[0]]) + Unexpired(es[1..], now)
  }

  lemma UnexpiredStep(es: seq<Entry>, i: nat, now: int)
    requires i < |es|
    ensures var kept := if es[i].expiresAt <= now then es[..i] else es[..i + 1];
            es[..i] + Unexpired(es[i..], now) == kept + Unexpired(es[i + 1..], now)
    ensures var rest := es[..i] + es[i + 1..]; rest[..i] == es[..i] && rest[i..] == es[i + 1..]
  {
    assert es[i..][1..] == es[i + 1..] && es[..i + 1] == es[..i] + [es[i]];
  }

  ghost predicate ByExpiry(es: seq<Entry>) {
    forall i, j :: 0 <= i < j < |es| ==> es[i].expiresAt <= es[j].expiresAt
  }

  lemma {:induction false} NoneExpired(es: seq<Entry>, now: int)
    requires forall e :: e in es ==> e.expiresAt > now
    ensures Unexpired(es, now) == es
  {
    if es != [] {
      assert es[0] in es;
      NoneExpired(es[1..], now);
    }
  }

  lemma ByExpiryTail(es: seq<Entry>)
    requires es != [] && ByExpiry(es)
    ensures ByExpiry(es[1..]) && forall e :: e in es ==> es[0].expiresAt <= e.expiresAt
  {
    forall e | e in es ensures es[0].expiresAt <= e.expiresAt {
      var j :| 0 <= j < |es| && es[j] == e;
    }
  }

  lemma OneMoreExpired(es: seq<Entry>, now: int, m: nat)
    requires es != [] && es[0].expiresAt <= now && m < |es| && Unexpired(es[1..], now) == es[1..][m..]
    requires forall e :: e in es[1..][..m] ==> e.expiresAt <= now
    ensures Unexpired(es, now) == es[m + 1..] == es[1..][m..] && forall e :: e in es[..m + 1] ==> e.expiresAt <= now
  {
    assert es[1..][m..] == es[m + 1..] && es[..m + 1] == [es[0]] + es[1..][..m];
  }

  /** The expired entries are the first ones. */
  lemma {:induction false} ExpiredFirst(es: seq<Entry>, now: int) returns (m: nat)
    requires ByExpiry(es)
    ensures m <= |es| && Unexpired(es, now) == es[m..]
    ensures (forall e :: e in es[..m] ==> e.expiresAt <= now) && (forall e :: e in es[m..] ==> e.expiresAt > now)
  {
    m := 0;
    if es != [] {
      ByExpiryTail(es);
      if es[0].expiresAt > now {
        NoneExpired(es, now);
      } else {
        m := ExpiredFirst(es[1..], now);
        OneMoreExpired(es, now, m);
        m := m + 1;
      }
    }
  }

  /** Eviction removes exactly the expired entries, which are the oldest ones, and leaves the newest part of the log. */
  lemma ExpiredAreOldest(c: Settings, es: seq<Entry>, log: seq<Recording>, clock: int, now: int) returns (m: nat)
    requires Holds(c, es, log, clock) && (log == [] || clock <= now)
    ensures m <= |es| && Unexpired(es, now) == es[m..] && Holds(c, es[m..], log, now)
    ensures (forall e :: e in es[..m] ==> e.expiresAt <= now) && (forall e :: e in es[m..] ==> e.expiresAt > now)
  {
    var k := HeldFrom(c, es, log, clock, now);
    HeldByExpiry(c, es, log, k, clock, now);
    m := ExpiredFirst(es, now);
    Evicted(c, es, log, k, clock, m, now);
    StillHolds(c, es[m..], log, k + m, now);
  }

  lemma HeldByExpiry(c: Settings, es: seq<Entry>, log: seq<Recording>, k: nat, clock: int, now: int)
    requires Chronological(log, now) && HoldsFrom(c, es, log, k, clock)
    ensures ByExpiry(es)
  {
    forall i, j | 0 <= i < j < |es| ensures es[i].expiresAt <= es[j].expiresAt {
      assert EntryAt(c, es, log, k, i) && EntryAt(c, es, log, k, j) && InOrder(log, k + i, k + j);
    }
  }

  // ---------------------------------------------------------------- one call, on values

  /** What one call does, on values: the keys left by eviction are the window, and the map stays the newest part of the
      log. */
  lemma CallKeeps(c: Settings, es: seq<Entry>, log: seq<Recording>, clock: int, id: string, now: int)
    requires Holds(c, es, log, clock) && (log == [] || clock <= now)
    ensures var live := Unexpired(es, now);
            var after := if Has(live, id) then live else Inserted(c, live, id, now);
            && (Has(live, id) <==> IsDuplicate(c, log, id, now))
            && Holds(c, after, AfterCall(c, log, id, now), now) && |after| <= c.Capacity()
  {
    var m := ExpiredAreOldest(c, es, log, clock, now);
    LiveKeeps(c, es[m..], log, id, now);
  }

  lemma LiveKeeps(c: Settings, es: seq<Entry>, log: seq<Recording>, id: string, now: int)
    requires Holds(c, es, log, now) && forall e :: e in es ==> e.expiresAt > now
    ensures Has(es, id) <==> IsDuplicate(c, log, id, now)
    ensures var after := if Has(es, id) then es else Inserted(c, es, id, now);
            Holds(c, after, AfterCall(c, log, id, now), now) && |after| <= c.Capacity()
  {
    var k := HeldFrom(c, es, log, now, now);
    HasMeansDuplicate(c, es, log, k, id, now);
    if Has(es, id) {
      StillHolds(c, es, log, k, now);
    } else {
      Recorded(c, es, log, k, id, now);
      StillHolds(c, Inserted(c, es, id, now), log + [Recording(id, now)], k + Dropped(c, es), now);
    }
  }

  lemma HeldFrom(c: Settings, es: seq<Entry>, log: seq<Recording>, clock: int, now: int) returns (k: nat)
    requires Holds(c, es, log, clock) && (log == [] || clock <= now)
    ensures HoldsFrom(c, es, log, k, clock) && Chronological(log, now)
  {
    k :| HoldsFrom(c, es, log, k, clock);
    forall i | 0 <= i < |log| ensures NotAfter(log, i, now) {
      assert NotAfter(log, i, clock);
    }
  }

  lemma StillHolds(c: Settings, es: seq<Entry>, log: seq<Recording>, k: nat, now: int)
    requires Chronological(log, now) && HoldsFrom(c, es, log, k, now)
    ensures Holds(c, es, log, now) && |es| <= c.Capacity()
  {
  }

  lemma Evicted(c: Settings, es: seq<Entry>, log: seq<Recording>, k: nat, clock: int, m: nat, now: int)
    requires HoldsFrom(c, es, log, k, clock) && (log == [] || clock <= now)
    requires m <= |es| && forall e :: e in es[..m] ==> e.expiresAt <= now
    ensures HoldsFrom(c, es[m..], log, k + m, now)
  {
    var fs, n := es[m..], k + m;
    forall i | 0 <= i < k + m ensures !InWindow(c, log, i, now) {
      if i >= k {
        assert EntryAt(c, es, log, k, i - k) && es[..m][i - k] in es[..m];
      } else {
        assert !InWindow(c, log, i, clock);
      }
    }
    forall i | 0 <= i < |fs| ensures EntryAt(c, fs, log, n, i) {
      assert EntryAt(c, es, log, k, m + i);
    }
    forall i, j | 0 <= i < j < |fs| ensures DifferentIds(fs, i, j) {
      assert DifferentIds(es, m + i, m + j);
    }
  }

  /** With expired entries gone, the map's keys are exactly the ids in the window. */
  lemma HasMeansDuplicate(c: Settings, es: seq<Entry>, log: seq<Recording>, k: nat, id: string, now: int)
    requires HoldsFrom(c, es, log, k, now) && forall e :: e in es ==> e.expiresAt > now
    ensures Has(es, id) <==> IsDuplicate(c, log, id, now)
  {
    if i :| 0 <= i < |es| && es[i].id == id {
      assert EntryAt(c, es, log, k, i) && es[i] in es;
      assert InWindow(c, log, k + i, now) && log[k + i].id == id;
    }
    if i :| 0 <= i < |log| && InWindow(c, log, i, now) && log[i].id == id {
      assert i >= k;
      assert EntryAt(c, es, log, k, i - k);
      assert es[i - k].id == id;
    }
  }

  /** The map after evicting for capacity and setting a fresh id. */
  function Inserted(c: Settings, es: seq<Entry>, id: string, now: int): seq<Entry> {
    (if |es| >= c.maxEntries && es != [] then es[1..] else es) + [Entry(id, now + c.ttlMs)]
  }

  function Dropped(c: Settings, es: seq<Entry>): nat {
    if |es| >= c.maxEntries && es != [] then 1 else 0
  }

  /** A fresh recording keeps the map in step with the log. */
  lemma Recorded(c: Settings, es: seq<Entry>, log: seq<Recording>, k: nat, id: string, now: int)
    requires Chronological(log, now) && HoldsFrom(c, es, log, k, now) && !Has(es, id)
    ensures Chronological(log + [Recording(id, now)], now)
    ensures HoldsFrom(c, Inserted(c, es, id, now), log + [Recording(id, now)], k + Dropped(c, es), now)
  {
    var d := Dropped(c, es);
    var u, fs, m := log + [Recording(id, now)], Inserted(c, es, id, now), k + d;
    RecordedInOrder(log, id, now);
    assert forall i :: 0 <= i < |fs| - 1 ==> fs[i] == es[d + i];
    forall i | 0 <= i < |fs| ensures EntryAt(c, fs, u, m, i) {
      if i < |fs| - 1 {
        assert EntryAt(c, es, log, k, d + i);
      }
    }
    forall i, j | 0 <= i < j < |fs| ensures DifferentIds(fs, i, j) {
      if j < |fs| - 1 {
        assert DifferentIds(es, d + i, d + j);
      }
    }
    forall i | 0 <= i < m ensures !InWindow(c, u, i, now) {
      if i < k {
        assert !InWindow(c, log, i, now);
      }
    }
  }

  lemma RecordedInOrder(log: seq<Recording>, id: string, now: int)
    requires Chronological(log, now)
    ensures Chronological(log + [Recording(id, now)], now)
  {
    var u := log + [Recording(id, now)];
    forall i, j | 0 <= i < j < |u| ensures InOrder(u, i, j) {
      if j < |log| {
        assert InOrder(log, i, j);
      } else {
        assert NotAfter(log, i, now);
      }
    }
    forall i | 0 <= i < |u| ensures NotAfter(u, i, now) {
      if i < |log| {
        assert NotAfter(log, i, now);
      }
    }
  }

  /** Whatever is no longer there expires no later than anything that is. */
  ghost predicate DropsEarliest(es: seq<Entry>, fs: seq<Entry>) {
    forall e, f :: e in es && e !in fs && f in fs ==> e.expiresAt <= f.expiresAt
  }

  /** What capacity pushes out is the entry that would have expired first. */
  lemma EvictsEarliest(c: Settings, es: seq<Entry>, log: seq<Recording>, id: string, now: int)
    requires Holds(c, es, log, now)
    ensures DropsEarliest(es, Inserted(c, es, id, now))
  {
    var k := HeldFrom(c, es, log, now, now);
    HeldByExpiry(c, es, log, k, now, now);
    if es != [] {
      assert EntryAt(c, es, log, k, 0) && NotAfter(log, k, now);
    }
    EarliestFirst(es, if |es| >= c.maxEntries && es != [] then es[1..] else es, Entry(id, now + c.ttlMs));
  }

  lemma EarliestFirst(es: seq<Entry>, kept: seq<Entry>, added: Entry)
    requires ByExpiry(es) && (kept == es || (es != [] && kept == es[1..]))
    requires es != [] ==> es[0].expiresAt <= added.expiresAt
    ensures DropsEarliest(es, kept + [added])
  {
    if es != [] && kept == es[1..] {
      assert es == [es[0]] + kept;
      forall f | f in kept ensures es[0].expiresAt <= f.expiresAt {
        var j :| 0 <= j < |es| && es[j] == f;
      }
    }
  }
}
