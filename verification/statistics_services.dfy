/** The listening history of a user: the check whether a track was already
    heard today, the push of a new play at the front, and the grouping of a
    history by calendar day. */
module StatisticsServices {
  import opened Base
  import opened StatisticsModels

  /** A `user_listening_history` document. `listenedTracks` is None when the
      document has no `listened_tracks` key; the list is newest first. */
  datatype HistoryDoc = HistoryDoc(listenedTracks: Option<seq<Entry>>)

  /** The entries of a history, or none when there is no document or no list. */
  function TracksOf(history: Option<HistoryDoc>): seq<Entry>
  {
    if history.Some? && history.value.listenedTracks.Some? then history.value.listenedTracks.value else []
  }

  /** The `any(...)` of `_is_track_listened_today`: some entry of the track
      lies in `[todayStart, todayEnd)`. */
  function AnyInWindow(entries: seq<Entry>, trackId: int, todayStart: int, todayEnd: int): (r: bool)
    ensures r <==> exists i :: 0 <= i < |entries| && entries[i].trackId == trackId
                                && todayStart <= entries[i].listenedAt < todayEnd
  {
    if entries == [] then false
    else
      var rest := AnyInWindow(entries[1..], trackId, todayStart, todayEnd);
      assert forall i :: 1 <= i < |entries| ==> entries[i] == entries[1..][i - 1];
      (entries[0].trackId == trackId && todayStart <= entries[0].listenedAt < todayEnd) || rest
  }

  /** `_is_track_listened_today`: false without a document or without its
      list; otherwise whether some entry of the track falls on the day of `now`. */
  function IsTrackListenedToday(history: Option<HistoryDoc>, trackId: int, now: int): (r: bool)
    ensures history.None? || history.value.listenedTracks.None? ==> !r
    ensures r <==> exists e :: e in TracksOf(history) && e.trackId == trackId && Day(e.listenedAt) == Day(now)
  {
    if history.None? || history.value.listenedTracks.None? then false
    else
      var entries := history.value.listenedTracks.value;
      var todayStart := DayStart(now);
      var todayEnd := todayStart + MicrosPerDay;
      forall e | e in entries
        ensures todayStart <= e.listenedAt < todayEnd <==> Day(e.listenedAt) == Day(now)
      {
        InTodayIffSameDay(e.listenedAt, now);
      }
      AnyInWindow(entries, trackId, todayStart, todayEnd)
  }

  /** The history document of a user in the collection, if any. */
  function HistoryOf(docs: map<int, HistoryDoc>, userId: int): Option<HistoryDoc>
  {
    if userId in docs then Some(docs[userId]) else None
  }

  /** `add_track_to_listening_history` on the whole collection: unless the
      track was heard today, push `{track_id, now}` at position 0 of the
      user's list, creating the document or the list when missing. */
  function Listen(docs: map<int, HistoryDoc>, userId: int, trackId: int, now: int): (r: map<int, HistoryDoc>)
    ensures IsTrackListenedToday(HistoryOf(docs, userId), trackId, now) ==> r == docs
    ensures !IsTrackListenedToday(HistoryOf(docs, userId), trackId, now) ==>
      && userId in r
      && TracksOf(HistoryOf(r, userId)) == [Entry(trackId, StoredTime(now))] + TracksOf(HistoryOf(docs, userId))
    ensures forall u :: u != userId ==> HistoryOf(r, u) == HistoryOf(docs, u)
  {
    var history := HistoryOf(docs, userId);
    if IsTrackListenedToday(history, trackId, now) then docs
    else docs[userId := HistoryDoc(Some([Entry(trackId, StoredTime(now))] + TracksOf(history)))]
  }

  /** After a play the track counts as heard for the rest of that day, also
      when the user had no document before. */
  lemma ListenMarksTrackToday(docs: map<int, HistoryDoc>, userId: int, trackId: int, now: int, later: int)
    requires Day(later) == Day(now)
    ensures IsTrackListenedToday(HistoryOf(Listen(docs, userId, trackId, now), userId), trackId, later)
  {
    var history := HistoryOf(docs, userId);
    if !IsTrackListenedToday(history, trackId, now) {
      var after := HistoryOf(Listen(docs, userId, trackId, now), userId);
      var e := Entry(trackId, StoredTime(now));
      assert TracksOf(after)[0] == e;
      assert e in TracksOf(after);
    }
  }

  /** A second play of the same track on the same day changes nothing. */
  lemma ListenIdempotentSameDay(docs: map<int, HistoryDoc>, userId: int, trackId: int, now: int, later: int)
    requires Day(later) == Day(now)
    ensures Listen(Listen(docs, userId, trackId, now), userId, trackId, later) == Listen(docs, userId, trackId, now)
  {
    ListenMarksTrackToday(docs, userId, trackId, now, later);
  }

  /** The `user_listening_history` collection, keyed by user id. */
  class ListeningHistoryCollection {
    var docs: map<int, HistoryDoc>

    constructor ()
      ensures docs == map[]
    {
      docs := map[];
    }

    /** `add_track_to_listening_history`: the play is recorded at the front
        of the user's list unless the track was heard today; older entries
        keep their order behind it and other users' documents are untouched. */
    method AddTrackToListeningHistory(userId: int, trackId: int, now: int)
      modifies this
      ensures docs == Listen(old(docs), userId, trackId, now)
      ensures IsTrackListenedToday(HistoryOf(old(docs), userId), trackId, now) ==> docs == old(docs)
      ensures !IsTrackListenedToday(HistoryOf(old(docs), userId), trackId, now) ==>
        && userId in docs
        && TracksOf(HistoryOf(docs, userId)) == [Entry(trackId, StoredTime(now))] + TracksOf(HistoryOf(old(docs), userId))
        && forall u :: u != userId ==> HistoryOf(docs, u) == HistoryOf(old(docs), u)
    {
      var userHistory := HistoryOf(docs, userId);
      if !IsTrackListenedToday(userHistory, trackId, now) {
        var newEntry := Entry(trackId, StoredTime(now));
        docs := docs[userId := HistoryDoc(Some([newEntry] + TracksOf(userHistory)))];
      }
    }
  }

  // ---------------------------------------------------------------------
  // group_tracks_by_date

  /** The calendar days on which the entries were heard. */
  ghost function DaysOf(entries: seq<Entry>): set<int>
  {
    set e | e in entries :: Day(e.listenedAt)
  }

  /** The entries heard on day `d`, in input order. */
  function OnDay(entries: seq<Entry>, d: int): (r: seq<Entry>)
    ensures forall e :: e in r <==> e in entries && Day(e.listenedAt) == d
    ensures |r| <= |entries|
  {
    if entries == [] then []
    else
      var init := entries[..|entries| - 1];
      var last := entries[|entries| - 1];
      assert entries == init + [last];
      var rest := OnDay(init, d);
      if Day(last.listenedAt) == d then rest + [last] else rest
  }

  /** The filter of one entry: the entry itself when it is on day `d`. */
  lemma OnDayOfOne(e: Entry, d: int)
    ensures OnDay([e], d) == if Day(e.listenedAt) == d then [e] else []
  {
    assert [e][..0] == [];
  }

  /** Filtering keeps order and multiplicity: the filter of a concatenation
      is the concatenation of the filters. */
  lemma {:induction false} OnDayOfConcat(a: seq<Entry>, b: seq<Entry>, d: int)
    ensures OnDay(a + b, d) == OnDay(a, d) + OnDay(b, d)
    decreases |b|
  {
    if b == [] {
      assert a + b == a;
    } else {
      var init := b[..|b| - 1];
      var last := b[|b| - 1];
      assert (a + b)[..|a + b| - 1] == a + init;
      assert (a + b)[|a + b| - 1] == last;
      OnDayOfConcat(a, init, d);
    }
  }

  lemma OnDayOfAbsentDay(entries: seq<Entry>, d: int)
    requires d !in DaysOf(entries)
    ensures OnDay(entries, d) == []
  {
  }

  /** Adding one entry to its day's group turns the grouping of `s` into the
      grouping of `s + [e]`. */
  lemma GroupStep(s: seq<Entry>, e: Entry, grouped: map<int, seq<Entry>>)
    requires grouped.Keys == DaysOf(s)
    requires forall d :: d in grouped ==> grouped[d] == OnDay(s, d)
    ensures var day := Day(e.listenedAt);
            var next := grouped[day := (if day in grouped then grouped[day] else []) + [e]];
            && next.Keys == DaysOf(s + [e])
            && forall d :: d in next ==> next[d] == OnDay(s + [e], d)
  {
    var day := Day(e.listenedAt);
    var t := s + [e];
    assert t[..|t| - 1] == s;
    assert DaysOf(t) == DaysOf(s) + {day} by {
      forall x | x in DaysOf(t) ensures x in DaysOf(s) + {day} {
        var y :| y in t && Day(y.listenedAt) == x;
        if y != e { assert y in s; }
      }
    }
    if day !in grouped {
      OnDayOfAbsentDay(s, day);
    }
  }

  /** `group_tracks_by_date`: a map from each day of the input to the entries
      heard that day, in input order, each copied as `{track_id, listened_at}`. */
  method GroupTracksByDate(listenedTracks: seq<Entry>) returns (grouped: map<int, seq<Entry>>)
    ensures grouped.Keys == DaysOf(listenedTracks)
    ensures forall d :: d in grouped ==> grouped[d] == OnDay(listenedTracks, d)
  {
    grouped := map[];
    for i := 0 to |listenedTracks|
      invariant grouped.Keys == DaysOf(listenedTracks[..i])
      invariant forall d :: d in grouped ==> grouped[d] == OnDay(listenedTracks[..i], d)
    {
      var entry := listenedTracks[i];
      var listenDate := Day(entry.listenedAt);
      GroupStep(listenedTracks[..i], entry, grouped);
      assert listenedTracks[..i + 1] == listenedTracks[..i] + [entry];
      var group := if listenDate in grouped then grouped[listenDate] else [];
      grouped := grouped[listenDate := group + [Entry(entry.trackId, entry.listenedAt)]];
    }
    assert listenedTracks[..|listenedTracks|] == listenedTracks;
  }

  /** The total size of the groups of the given days. */
  ghost function SumSizes(entries: seq<Entry>, days: set<int>): nat
    decreases days
  {
    if days == {} then 0
    else
      HasElement(days);
      var d :| d in days;
      |OnDay(entries, d)| + SumSizes(entries, days - {d})
  }

  /** The total does not depend on the order in which days are taken. */
  lemma {:induction false} SumSizesPick(entries: seq<Entry>, days: set<int>, d: int)
    requires d in days
    ensures SumSizes(entries, days) == |OnDay(entries, d)| + SumSizes(entries, days - {d})
    decreases days
  {
    var x :| x in days && SumSizes(entries, days) == |OnDay(entries, x)| + SumSizes(entries, days - {x});
    if x != d {
      SumSizesPick(entries, days - {x}, d);
      SumSizesPick(entries, days - {d}, x);
      assert days - {x} - {d} == days - {d} - {x};
    }
  }

  /** One more entry adds one to the group of its own day, if that day is counted. */
  lemma {:induction false} SumSizesAppend(entries: seq<Entry>, e: Entry, days: set<int>)
    ensures SumSizes(entries + [e], days)
         == SumSizes(entries, days) + (if Day(e.listenedAt) in days then 1 else 0)
    decreases days
  {
    var s := entries + [e];
    assert s[..|s| - 1] == entries;
    if days != {} {
      HasElement(days);
      var d :| d in days;
      SumSizesPick(s, days, d);
      SumSizesPick(entries, days, d);
      SumSizesAppend(entries, e, days - {d});
    }
  }

  /** A day on which nothing was heard adds nothing. */
  lemma SumSizesEmptyDay(entries: seq<Entry>, days: set<int>, x: int)
    requires x !in days && x !in DaysOf(entries)
    ensures SumSizes(entries, days + {x}) == SumSizes(entries, days)
  {
    SumSizesPick(entries, days + {x}, x);
    OnDayOfAbsentDay(entries, x);
    assert days + {x} - {x} == days;
  }

  /** Grouping loses and duplicates nothing: the sizes of the groups of all
      days of the input add up to the length of the input. */
  lemma {:induction false} GroupSizesSum(entries: seq<Entry>)
    ensures SumSizes(entries, DaysOf(entries)) == |entries|
  {
    if entries != [] {
      var init := entries[..|entries| - 1];
      var e := entries[|entries| - 1];
      assert entries == init + [e];
      assert DaysOf(entries) == DaysOf(init) + {Day(e.listenedAt)};
      GroupSizesSum(init);
      SumSizesAppend(init, e, DaysOf(entries));
      if Day(e.listenedAt) !in DaysOf(init) {
        SumSizesEmptyDay(init, DaysOf(init), Day(e.listenedAt));
      } else {
        assert DaysOf(entries) == DaysOf(init);
      }
    }
  }

  /** Every entry lies in the group of its own day and in no other. */
  lemma EntryInOwnGroupOnly(entries: seq<Entry>, i: int, d: int)
    requires 0 <= i < |entries|
    ensures entries[i] in OnDay(entries, d) <==> d == Day(entries[i].listenedAt)
  {
  }
}
