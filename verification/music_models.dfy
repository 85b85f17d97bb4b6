/** The relational models of the music app that carry behaviour: artists,
    which record their unique listeners in the statistics store, albums and
    tracks with a publication status, and playlists. */
module MusicModels {
  import opened Base
  import opened IdLists
  import opened StatisticsModels

  /** Publication status of an album or a track. `Music.Status` declares only
      DRAFT ("DR") and PUBLISHED ("PB"); ACTIVE and REJECTED are the statuses
      the moderation services assign (see DeclaredStatus). */
  datatype Status = Draft | Published | Active | Rejected

  /** `Music.Status.<name>` as the class declares it: a member exists for
      DRAFT and PUBLISHED only, any other name is an AttributeError. */
  function DeclaredStatus(name: string): (r: Option<Status>)
    ensures r.Some? <==> name == "DRAFT" || name == "PUBLISHED"
    ensures r == Some(Draft) <==> name == "DRAFT"
    ensures r == Some(Published) <==> name == "PUBLISHED"
  {
    if name == "DRAFT" then Some(Draft)
    else if name == "PUBLISHED" then Some(Published)
    else None
  }

  /** The release date after a release: an existing date is kept, a missing
      one becomes the current time. */
  function ReleaseDate(current: Option<int>, now: int): (r: Option<int>)
    ensures r.Some?
    ensures current.Some? ==> r == current
    ensures current.None? ==> r == Some(now)
  {
    if current.Some? then current else Some(now)
  }

  /** Releasing again, at any later time, keeps the first release date. */
  lemma ReleaseDateSettles(current: Option<int>, now: int, later: int)
    ensures ReleaseDate(ReleaseDate(current, now), later) == ReleaseDate(current, now)
  {
  }

  datatype MusicKind = AlbumKind | TrackKind

  /** A row of `Album` or `Track`, both derived from the abstract `Music`. */
  class MusicObject {
    const kind: MusicKind
    const artistId: int
    var title: string
    var status: Status
    var releaseDate: Option<int>

    /** A new album or track starts as a draft without a release date. */
    constructor (kind: MusicKind, artistId: int, title: string)
      ensures this.kind == kind && this.artistId == artistId && this.title == title
      ensures status == Draft && releaseDate == None
    {
      this.kind := kind;
      this.artistId := artistId;
      this.title := title;
      status := Draft;
      releaseDate := None;
    }

    /** `Music.release`, which `Album.release` and `Track.release` call
        unchanged: keep or stamp the release date, then publish. */
    method Release(now: int)
      modifies this`releaseDate, this`status
      ensures releaseDate == ReleaseDate(old(releaseDate), now)
      ensures old(releaseDate).Some? ==> releaseDate == old(releaseDate)
      ensures status == Published
    {
      if releaseDate.None? {
        releaseDate := Some(now);
      }
      status := Published;
    }
  }

  /** The unique listeners of an artist after `listenerId` is appended to the
      stored list and the document is saved. */
  function WithUniqueListener(docs: map<int, seq<int>>, artistId: int, listenerId: int): (r: map<int, seq<int>>)
    ensures artistId in r && listenerId in r[artistId] && NoDuplicates(r[artistId])
    ensures forall l :: l in r[artistId] <==> l in IdsOf(docs, artistId) || l == listenerId
    ensures r.Keys == docs.Keys + {artistId}
    ensures forall a :: a != artistId && a in docs ==> r[a] == docs[a]
  {
    docs[artistId := Dedupe(IdsOf(docs, artistId) + [listenerId])]
  }

  /** Recording a listener the document already holds changes nothing. */
  lemma {:induction false} WithPresentListener(docs: map<int, seq<int>>, artistId: int, listenerId: int)
    requires artistId in docs && listenerId in docs[artistId] && NoDuplicates(docs[artistId])
    ensures WithUniqueListener(docs, artistId, listenerId) == docs
  {
    var ids := docs[artistId];
    var t := ids + [listenerId];
    assert t[..|t| - 1] == ids;
    DedupeOfDistinct(ids);
    assert Dedupe(t) == ids;
  }

  /** Recording the same listener twice stores what recording it once does. */
  lemma WithUniqueListenerIdempotent(docs: map<int, seq<int>>, artistId: int, listenerId: int)
    ensures WithUniqueListener(WithUniqueListener(docs, artistId, listenerId), artistId, listenerId)
         == WithUniqueListener(docs, artistId, listenerId)
  {
    WithPresentListener(WithUniqueListener(docs, artistId, listenerId), artistId, listenerId);
  }

  /** An artist. Its optional user account is read only by the owner check,
      which takes the artist-to-user relation as a map (see
      MusicServices.CheckIsUserArtistOwner). */
  class Artist {
    const id: int

    constructor (id: int)
      ensures this.id == id
    {
      this.id := id;
    }

    /** `Artist.update_unique_listeners`: load the artist's listener document
        or start a new one, append the listener, save (which deduplicates). */
    method UpdateUniqueListeners(listenerId: int, collection: IdListCollection)
      modifies collection
      ensures collection.docs == WithUniqueListener(old(collection.docs), id, listenerId)
    {
      var uniqueListeners: ArtistUniqueListeners;
      if id in collection.docs {
        uniqueListeners := new ArtistUniqueListeners(id, collection.docs[id]);
      } else {
        uniqueListeners := new ArtistUniqueListeners(id, []);
      }
      uniqueListeners.listeners := uniqueListeners.listeners + [listenerId];
      uniqueListeners.Save(collection);
    }
  }

  /** A row of `Playlist`; `tracks` is its many-to-many relation to `Track`. */
  datatype Playlist = Playlist(
    title: string,
    image: Option<string>,
    ownerId: int,
    isPublic: bool,
    tracks: set<int>,
    isLikedPlaylist: bool)

  /** The title a playlist gets when none is given. */
  const DefaultPlaylistTitle: string := "favorite"

  /** A liked-tracks playlist created with the model's defaults. */
  function NewLikesPlaylist(ownerId: int): (p: Playlist)
    ensures p.ownerId == ownerId && p.isLikedPlaylist && p.tracks == {} && !p.isPublic
    ensures p.title == DefaultPlaylistTitle && p.image == None
  {
    Playlist(DefaultPlaylistTitle, None, ownerId, false, {}, true)
  }
}
