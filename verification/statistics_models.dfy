/** The Mongo documents of the statistics app and their `save` overrides.
    A collection is an object whose field maps a document's key (the user or
    the artist it belongs to) to the document's contents. */
module StatisticsModels {
  import opened Base
  import opened IdLists

  /** One listening record: a track and the moment it was heard. */
  datatype Entry = Entry(trackId: int, listenedAt: int)

  /** A collection of documents each holding one list of ids, keyed by the
      id of the user or artist the document belongs to. */
  class IdListCollection {
    var docs: map<int, seq<int>>

    constructor ()
      ensures docs == map[]
    {
      docs := map[];
    }
  }

  /** The ids stored under `key`, or the empty list when there is no document. */
  function IdsOf(docs: map<int, seq<int>>, key: int): seq<int>
  {
    if key in docs then docs[key] else []
  }

  /** The artists a user follows. */
  class UserArtistsFollow {
    var userId: int
    var artists: seq<int>

    constructor (userId: int, artists: seq<int>)
      ensures this.userId == userId && this.artists == artists
    {
      this.userId := userId;
      this.artists := artists;
    }

    /** Collapses duplicate artists, then persists the document. */
    method Save(collection: IdListCollection)
      modifies this`artists, collection
      ensures NoDuplicates(artists)
      ensures forall a :: a in artists <==> a in old(artists)
      ensures artists == Dedupe(old(artists))
      ensures collection.docs == old(collection.docs)[userId := artists]
    {
      artists := Dedupe(artists);
      collection.docs := collection.docs[userId := artists];
    }
  }

  /** The users that listened to an artist at least once. */
  class ArtistUniqueListeners {
    var artistId: int
    var listeners: seq<int>

    constructor (artistId: int, listeners: seq<int>)
      ensures this.artistId == artistId && this.listeners == listeners
    {
      this.artistId := artistId;
      this.listeners := listeners;
    }

    /** Collapses duplicate listeners, then persists the document. */
    method Save(collection: IdListCollection)
      modifies this`listeners, collection
      ensures NoDuplicates(listeners)
      ensures forall l :: l in listeners <==> l in old(listeners)
      ensures listeners == Dedupe(old(listeners))
      ensures collection.docs == old(collection.docs)[artistId := listeners]
    {
      listeners := Dedupe(listeners);
      collection.docs := collection.docs[artistId := listeners];
    }
  }

  /** BSON dates keep milliseconds: storing a datetime drops its sub-millisecond part. */
  function StoredTime(ts: int): (r: int)
    ensures r % 1000 == 0
    ensures r <= ts < r + 1000
    ensures Day(r) == Day(ts)
  {
    StoredTimeFacts(ts);
    ts - ts % 1000
  }

  lemma StoredTimeFacts(ts: int)
    ensures (ts - ts % 1000) % 1000 == 0
    ensures ts - ts % 1000 <= ts < ts - ts % 1000 + 1000
    ensures Day(ts - ts % 1000) == Day(ts)
  {
    var q := ts / 1000;
    assert ts - ts % 1000 == q * 1000;
    MillisecondsOfShift(q, 0);
    var d := Day(ts);
    var m := ts - DayStart(ts);
    assert DayStart(ts) == (d * 86_400_000) * 1000;
    MillisecondsOfShift(d * 86_400_000, m);
    DayOfOffset(d, m - m % 1000);
  }

  /** Whole seconds in front of an offset do not change its milliseconds. */
  lemma MillisecondsOfShift(k: int, m: int)
    ensures (k * 1000 + m) % 1000 == m % 1000
  {
  }

  /** The window of `TrackListening.save` for day `day` as intended: from
      the midnight that starts the day, included, to the next midnight,
      excluded. */
  predicate InDayWindow(ts: int, day: int)
  {
    day * MicrosPerDay <= ts < day * MicrosPerDay + MicrosPerDay
  }

  /** The intended window holds a timestamp exactly when it is on that day. */
  lemma DayWindowIsDay(ts: int, day: int)
    ensures InDayWindow(ts, day) <==> Day(ts) == day
  {
    if InDayWindow(ts, day) {
      DayOfOffset(day, ts - day * MicrosPerDay);
    } else {
      assert DayStart(ts) <= ts < DayStart(ts) + MicrosPerDay;
    }
  }

  /** The window as the store receives it. The bounds are
      `datetime.combine(day, time.min)` and `datetime.combine(day, time.max)`
      (23:59:59.999999); both travel as BSON dates, so the upper one arrives
      cut to 23:59:59.999, and `$lt` leaves out the last millisecond of the day. */
  predicate InQueryWindowAsWritten(ts: int, day: int)
  {
    StoredTime(day * MicrosPerDay) <= ts < StoredTime(day * MicrosPerDay + MicrosPerDay - 1)
  }

  predicate HasRecordInQueryWindowAsWritten(records: seq<Entry>, trackId: int, day: int)
  {
    exists i :: 0 <= i < |records| && records[i].trackId == trackId
                && InQueryWindowAsWritten(records[i].listenedAt, day)
  }

  /** The store's copy of the upper bound: 999 microseconds before midnight. */
  lemma QueryUpperBoundAsWritten(day: int)
    ensures StoredTime(day * MicrosPerDay + MicrosPerDay - 1) == day * MicrosPerDay + MicrosPerDay - 1000
  {
    MillisecondsOfShift(day * 86_400_000 + 86_399_999, 999);
  }

  /** With the bounds the store receives, a track played at 23:59:59.9995
      (stored as 23:59:59.999) is not found by a second play at
      23:59:59.9996 of the same day, so the track gets two records that day. */
  lemma AsWrittenQueryAllowsTwoRecordsOnOneDay(day: int, trackId: int)
    ensures var first := day * MicrosPerDay + MicrosPerDay - 500;
            var second := day * MicrosPerDay + MicrosPerDay - 400;
            var records := [Entry(trackId, StoredTime(first))];
            && Day(first) == day && Day(second) == day
            && !HasRecordInQueryWindowAsWritten(records, trackId, Day(second))
            && !OnePerTrackAndDay(records + [Entry(trackId, StoredTime(second))])
  {
    var first := day * MicrosPerDay + MicrosPerDay - 500;
    var second := day * MicrosPerDay + MicrosPerDay - 400;
    DayOfOffset(day, MicrosPerDay - 500);
    DayOfOffset(day, MicrosPerDay - 400);
    MillisecondsOfShift(day * 86_400_000 + 86_399_999, 500);
    MillisecondsOfShift(day * 86_400_000 + 86_399_999, 600);
    assert StoredTime(first) == day * MicrosPerDay + MicrosPerDay - 1000;
    QueryUpperBoundAsWritten(day);
    var records := [Entry(trackId, StoredTime(first))];
    assert !InQueryWindowAsWritten(records[0].listenedAt, day);
    var after := records + [Entry(trackId, StoredTime(second))];
    assert after[0].trackId == after[1].trackId;
    assert Day(after[0].listenedAt) == Day(after[1].listenedAt);
  }

  /** The stored records of `TrackListening`. */
  class TrackListeningCollection {
    var records: seq<Entry>

    /** Every stored timestamp has millisecond resolution, and no track has
        two records on the same calendar day. */
    ghost predicate Valid()
      reads this
    {
      && (forall i :: 0 <= i < |records| ==> records[i].listenedAt % 1000 == 0)
      && OnePerTrackAndDay(records)
    }

    constructor ()
      ensures Valid() && records == []
    {
      records := [];
    }
  }

  predicate OnePerTrackAndDay(records: seq<Entry>)
  {
    forall i, j :: 0 <= i < j < |records| && records[i].trackId == records[j].trackId
      ==> Day(records[i].listenedAt) != Day(records[j].listenedAt)
  }

  /** The query of `TrackListening.save` as intended: some stored record of
      the track lies in the day's window. Records of every user are searched. */
  predicate HasRecordInWindow(records: seq<Entry>, trackId: int, day: int)
  {
    exists i :: 0 <= i < |records| && records[i].trackId == trackId && InDayWindow(records[i].listenedAt, day)
  }

  /** The query finds a record exactly when the track was stored on that day. */
  lemma RecordInWindowIffSameDay(records: seq<Entry>, trackId: int, day: int)
    ensures HasRecordInWindow(records, trackId, day)
       <==> exists e :: e in records && e.trackId == trackId && Day(e.listenedAt) == day
  {
    forall i | 0 <= i < |records|
      ensures InDayWindow(records[i].listenedAt, day) <==> Day(records[i].listenedAt) == day
    {
      DayWindowIsDay(records[i].listenedAt, day);
    }
  }

  /** One play of a track, to be stored at most once per track and day. */
  class TrackListening {
    var trackId: int
    var listenedAt: int

    constructor (trackId: int, listenedAt: int)
      ensures this.trackId == trackId && this.listenedAt == listenedAt
    {
      this.trackId := trackId;
      this.listenedAt := listenedAt;
    }

    /** `TrackListening.save` as written: the class is an embedded document,
        and mongoengine gives a query manager `objects` only to top-level
        documents, so the lookup raises AttributeError before any write. */
    method SaveAsWritten(collection: TrackListeningCollection) returns (r: Outcome)
      ensures r == Fail(AttributeError)
      ensures unchanged(collection)
    {
      r := Fail(AttributeError);
    }

    /** `TrackListening.save` as intended: stores the record unless the same
        track already has one on the day of `listenedAt`; keeps the
        collection's invariant. */
    method Save(collection: TrackListeningCollection)
      requires collection.Valid()
      modifies collection
      ensures collection.Valid()
      ensures HasRecordInWindow(old(collection.records), trackId, Day(listenedAt))
        ==> collection.records == old(collection.records)
      ensures !HasRecordInWindow(old(collection.records), trackId, Day(listenedAt))
        ==> collection.records == old(collection.records) + [Entry(trackId, StoredTime(listenedAt))]
    {
      var day := Day(listenedAt);
      if HasRecordInWindow(collection.records, trackId, day) {
        return;
      }
      ghost var before := collection.records;
      var entry := Entry(trackId, StoredTime(listenedAt));
      collection.records := collection.records + [entry];
      forall i | 0 <= i < |before| && before[i].trackId == trackId
        ensures Day(before[i].listenedAt) != day
      {
        DayWindowIsDay(before[i].listenedAt, day);
      }
    }
  }

  /** Once a play is stored, every later save of the same track on the same
      day finds it and stores nothing. */
  lemma StoredPlayBlocksSameDay(records: seq<Entry>, trackId: int, listenedAt: int, later: int)
    requires Day(later) == Day(listenedAt)
    ensures HasRecordInWindow(records + [Entry(trackId, StoredTime(listenedAt))], trackId, Day(later))
  {
    var s := records + [Entry(trackId, StoredTime(listenedAt))];
    DayWindowIsDay(StoredTime(listenedAt), Day(later));
    assert s[|records|].trackId == trackId;
  }
}
