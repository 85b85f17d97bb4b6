/** The service layer of the music app: unique-listener and follow documents
    in the statistics store, lookup of a music object by type and id,
    release and status changes, the artist owner check, and the playlist
    operations (like/unlike a track, delete, update). */
module MusicServices {
  import opened Base
  import opened IdLists
  import opened StatisticsModels
  import opened MusicModels

  // ---------------------------------------------------------------------
  // Statistics documents written with $setOnInsert and $addToSet

  /** `fetch_or_create_artist_unique_listeners`: an upsert that creates
      `{artist_id, listeners: []}` only when the artist has no document, and
      returns the document as it is afterwards. */
  method FetchOrCreateArtistUniqueListeners(collection: IdListCollection, artistId: int) returns (listeners: seq<int>)
    modifies collection
    ensures artistId in old(collection.docs) ==>
      collection.docs == old(collection.docs) && listeners == old(collection.docs)[artistId]
    ensures artistId !in old(collection.docs) ==>
      collection.docs == old(collection.docs)[artistId := []] && listeners == []
  {
    if artistId !in collection.docs {
      collection.docs := collection.docs[artistId := []];
    }
    listeners := collection.docs[artistId];
  }

  /** `add_unique_listener_to_artist`: `$addToSet` without upsert. The
      listener joins an existing document; without one nothing is written. */
  method AddUniqueListenerToArtist(collection: IdListCollection, artistId: int, listenerId: int)
    modifies collection
    ensures artistId in old(collection.docs) ==>
      && collection.docs == old(collection.docs)[artistId := AddToSet(old(collection.docs)[artistId], listenerId)]
      && listenerId in collection.docs[artistId]
    ensures artistId !in old(collection.docs) ==> collection.docs == old(collection.docs)
  {
    if artistId in collection.docs {
      collection.docs := collection.docs[artistId := AddToSet(collection.docs[artistId], listenerId)];
    }
  }

  /** `follow_for_artist`: `$addToSet` with upsert on the user's document. */
  method FollowForArtist(collection: IdListCollection, userId: int, artistId: int)
    modifies collection
    ensures collection.docs == old(collection.docs)[userId := AddToSet(IdsOf(old(collection.docs), userId), artistId)]
    ensures artistId in collection.docs[userId]
    ensures forall a :: a in collection.docs[userId] <==> a in IdsOf(old(collection.docs), userId) || a == artistId
  {
    collection.docs := collection.docs[userId := AddToSet(IdsOf(collection.docs, userId), artistId)];
  }

  // ---------------------------------------------------------------------
  // fetch_music_objects_by_id_and_type

  datatype ObjectKind = ArtistObject | AlbumObject | TrackObject

  /** The ids of the rows of the three tables the lookup can reach. */
  datatype Catalog = Catalog(artists: set<int>, albums: set<int>, tracks: set<int>)

  /** A row found by the lookup: its table and its id. */
  datatype Found = Found(kind: ObjectKind, id: int)

  function RowsOf(catalog: Catalog, kind: ObjectKind): set<int>
  {
    match kind
    case ArtistObject => catalog.artists
    case AlbumObject => catalog.albums
    case TrackObject => catalog.tracks
  }

  /** `str.lower` on the ASCII letters. */
  function LowerChar(c: char): char
  {
    if 'A' <= c <= 'Z' then (c as int + 32) as char else c
  }

  function Lower(s: string): (r: string)
    ensures |r| == |s|
    ensures forall i :: 0 <= i < |r| ==> !('A' <= r[i] <= 'Z')
    ensures forall i :: 0 <= i < |s| && !('A' <= s[i] <= 'Z') ==> r[i] == s[i]
    ensures forall i :: 0 <= i < |s| && 'A' <= s[i] <= 'Z' ==> r[i] as int == s[i] as int + 32
  {
    seq(|s|, i requires 0 <= i < |s| => LowerChar(s[i]))
  }

  /** A lower-cased string is its own lower case. */
  lemma LowerIdempotent(s: string)
    ensures Lower(Lower(s)) == Lower(s)
  {
    var r := Lower(s);
    assert forall i :: 0 <= i < |r| ==> Lower(r)[i] == r[i];
  }

  /** `TYPE_MODEL_MAP`: the table named by a lower-case type. */
  function TypeModel(objType: string): (r: Option<ObjectKind>)
    ensures r.Some? <==> objType in {"artist", "album", "track"}
    ensures r == Some(ArtistObject) <==> objType == "artist"
    ensures r == Some(AlbumObject) <==> objType == "album"
    ensures r == Some(TrackObject) <==> objType == "track"
  {
    if objType == "artist" then Some(ArtistObject)
    else if objType == "album" then Some(AlbumObject)
    else if objType == "track" then Some(TrackObject)
    else None
  }

  /** The lookup as written: an unknown type raises RequestAborted, and the
      `except` clause that should turn it into None first reads
      `model_class`, which is not yet bound, so UnboundLocalError escapes. */
  function FetchMusicObjectsByIdAndTypeAsWritten(catalog: Catalog, objType: string, objId: int): (r: Result<Option<Found>>)
    ensures r == Err(UnboundLocalError) <==> TypeModel(Lower(objType)).None?
    ensures r.Err? ==> r.error == UnboundLocalError
    ensures TypeModel(Lower(objType)).Some? ==> r == Ok(FetchMusicObjectsByIdAndType(catalog, objType, objId))
  {
    match TypeModel(Lower(objType))
    case None => Err(UnboundLocalError)
    case Some(kind) => Ok(if objId in RowsOf(catalog, kind) then Some(Found(kind, objId)) else None)
  }

  /** Any type outside the three table names makes the written lookup raise. */
  lemma UnknownTypeRaisesAsWritten(catalog: Catalog, objId: int)
    ensures FetchMusicObjectsByIdAndTypeAsWritten(catalog, "playlist", objId) == Err(UnboundLocalError)
  {
    var lowered := Lower("playlist");
    assert lowered == "playlist" by {
      assert forall i :: 0 <= i < |lowered| ==> lowered[i] == "playlist"[i];
    }
  }

  /** `fetch_music_objects_by_id_and_type` as intended: the type is matched
      without regard to case; an unknown type or a missing id gives None. */
  function FetchMusicObjectsByIdAndType(catalog: Catalog, objType: string, objId: int): (r: Option<Found>)
    ensures r.Some? <==> TypeModel(Lower(objType)).Some? && objId in RowsOf(catalog, TypeModel(Lower(objType)).value)
    ensures r.Some? ==> r.value.id == objId && TypeModel(Lower(objType)) == Some(r.value.kind)
  {
    match TypeModel(Lower(objType))
    case None => None
    case Some(kind) => if objId in RowsOf(catalog, kind) then Some(Found(kind, objId)) else None
  }

  /** "Track", "TRACK" and "track" find the same row. */
  lemma FetchIgnoresCase(catalog: Catalog, objType: string, objId: int)
    ensures FetchMusicObjectsByIdAndType(catalog, objType, objId)
         == FetchMusicObjectsByIdAndType(catalog, Lower(objType), objId)
  {
    LowerIdempotent(objType);
  }

  // ---------------------------------------------------------------------
  // Release and status

  /** `release_music_object` as written: the clock is read through
      `datetime.timezone`, which has no `now`, so an object without a release
      date raises AttributeError before any field changes. Only an object
      already dated is published. */
  method ReleaseMusicObjectAsWritten(obj: MusicObject) returns (r: Outcome)
    modifies obj`status
    ensures r.Fail? <==> old(obj.releaseDate).None?
    ensures r.Fail? ==> r.error == AttributeError && obj.status == old(obj.status)
    ensures r.Pass? ==> obj.status == Published
  {
    if obj.releaseDate.None? {
      return Fail(AttributeError);
    }
    obj.status := Published;
    return Pass;
  }

  /** `release_music_object` as intended: the same steps as `Music.release`. */
  method ReleaseMusicObject(obj: MusicObject, now: int)
    modifies obj`releaseDate, obj`status
    ensures obj.releaseDate == ReleaseDate(old(obj.releaseDate), now)
    ensures old(obj.releaseDate).Some? ==> obj.releaseDate == old(obj.releaseDate)
    ensures obj.status == Published
  {
    obj.Release(now);
  }

  /** `update_music_object_status`: sets the status and nothing else. */
  method UpdateMusicObjectStatus(obj: MusicObject, status: Status)
    modifies obj`status
    ensures obj.status == status
  {
    obj.status := status;
  }

  // ---------------------------------------------------------------------
  // check_is_user_artist_owner

  /** The artists whose `user` is `userId`; `owners` maps an artist id to its
      user, None when the artist has no user account. */
  function ArtistsOfUser(owners: map<int, Option<int>>, userId: int): set<int>
  {
    set a | a in owners && owners[a] == Some(userId)
  }

  /** `check_is_user_artist_owner`: the single artist of the user must be
      `artistId`. `objects.filter(user=...).get()` raises when the user has
      no artist or several. */
  function CheckIsUserArtistOwner(owners: map<int, Option<int>>, userId: int, artistId: int): (r: Result<int>)
    ensures r.Ok? <==> ArtistsOfUser(owners, userId) == {artistId}
    ensures r.Ok? ==> r.value == artistId && artistId in owners && owners[artistId] == Some(userId)
    ensures r == Err(DoesNotExist) <==> ArtistsOfUser(owners, userId) == {}
    ensures r == Err(MultipleObjectsReturned) <==> |ArtistsOfUser(owners, userId)| > 1
    ensures r == Err(PermissionDenied) <==>
      |ArtistsOfUser(owners, userId)| == 1 && artistId !in ArtistsOfUser(owners, userId)
  {
    var owned := ArtistsOfUser(owners, userId);
    if |owned| == 0 then Err(DoesNotExist)
    else if |owned| > 1 then Err(MultipleObjectsReturned)
    else if artistId in owned then
      assert owned == {artistId} by {
        forall a | a in owned ensures a == artistId {
          SingletonMembers(owned, a, artistId);
        }
      }
      Ok(artistId)
    else Err(PermissionDenied)
  }

  // ---------------------------------------------------------------------
  // Playlists

  /** The tracks of a playlist after `manage_track`'s action. */
  function TracksAfterAction(tracks: set<int>, action: string, trackId: int): (r: set<int>)
    ensures trackId in r <==> action == "like" || (action != "unlike" && trackId in tracks)
    ensures r - {trackId} == tracks - {trackId}
  {
    if action == "like" then tracks + {trackId}
    else if action == "unlike" then tracks - {trackId}
    else tracks
  }

  /** Unliking a track that was not in the playlist before liking it
      restores the playlist. */
  lemma LikeThenUnlike(tracks: set<int>, trackId: int)
    requires trackId !in tracks
    ensures TracksAfterAction(TracksAfterAction(tracks, "like", trackId), "unlike", trackId) == tracks
  {
  }

  function WithTrackAction(p: Playlist, action: string, trackId: int): (q: Playlist)
    ensures q.tracks == TracksAfterAction(p.tracks, action, trackId)
    ensures q.(tracks := p.tracks) == p
  {
    p.(tracks := TracksAfterAction(p.tracks, action, trackId))
  }

  /** The liked-tracks playlists of a user. */
  function LikesPlaylistsOf(rows: map<int, Playlist>, userId: int): set<int>
  {
    set k | k in rows && rows[k].ownerId == userId && rows[k].isLikedPlaylist
  }

  predicate TitleInUse(rows: map<int, Playlist>, title: string)
  {
    exists k :: k in rows && rows[k].title == title
  }

  predicate TitleUsedByOther(rows: map<int, Playlist>, title: string, id: int)
  {
    exists k :: k in rows && k != id && rows[k].title == title
  }

  /** `Playlist.title` is unique across the table. */
  predicate UniqueTitles(rows: map<int, Playlist>)
  {
    forall a, b :: a in rows && b in rows && a != b ==> rows[a].title != rows[b].title
  }

  /** The `Playlist` table, with the id the next inserted row receives. */
  class PlaylistTable {
    var rows: map<int, Playlist>
    var nextId: int

    ghost predicate Valid()
      reads this
    {
      && (forall k :: k in rows ==> k < nextId)
      && UniqueTitles(rows)
    }

    constructor ()
      ensures Valid() && rows == map[]
    {
      rows := map[];
      nextId := 1;
    }

    /** `fetch_or_create_user_likes_playlist`: `get_or_create(owner=user,
        is_liked_playlist=True)`. Several matches raise; none inserts a new
        playlist with the default title, which the unique title refuses
        when another playlist already has it. */
    method FetchOrCreateUserLikesPlaylist(user: User) returns (r: Result<int>)
      requires Valid()
      modifies this
      ensures Valid()
      ensures var liked := LikesPlaylistsOf(old(rows), user.id);
        && (|liked| > 1 ==> r == Err(MultipleObjectsReturned) && rows == old(rows) && nextId == old(nextId))
        && (|liked| == 1 ==> r.Ok? && r.value in liked && rows == old(rows) && nextId == old(nextId))
        && (|liked| == 0 && TitleInUse(old(rows), DefaultPlaylistTitle) ==>
              r == Err(IntegrityError) && rows == old(rows) && nextId == old(nextId))
        && (|liked| == 0 && !TitleInUse(old(rows), DefaultPlaylistTitle) ==>
              && r == Ok(old(nextId))
              && rows == old(rows)[old(nextId) := NewLikesPlaylist(user.id)]
              && nextId == old(nextId) + 1)
    {
      var liked := LikesPlaylistsOf(rows, user.id);
      if |liked| > 1 {
        return Err(MultipleObjectsReturned);
      }
      if |liked| == 1 {
        HasElement(liked);
        var k :| k in liked;
        return Ok(k);
      }
      if TitleInUse(rows, DefaultPlaylistTitle) {
        return Err(IntegrityError);
      }
      var id := nextId;
      rows := rows[id := NewLikesPlaylist(user.id)];
      nextId := nextId + 1;
      return Ok(id);
    }

    /** `manage_track`: resolve the track (404 when missing) and the playlist
        (the user's liked-tracks playlist, or the one with `playlistId`),
        apply "like" or "unlike" to its tracks, return the track's artist.
        `trackArtists` maps each track id to the id of its artist. */
    method ManageTrack(user: User, action: string, trackId: int, isLiked: bool,
                       playlistId: Option<int>, trackArtists: map<int, int>) returns (r: Result<int>)
      requires Valid()
      modifies this
      ensures Valid()
      ensures trackId !in trackArtists ==> r == Err(NotFound) && rows == old(rows) && nextId == old(nextId)
      ensures r.Ok? ==> trackId in trackArtists && r.value == trackArtists[trackId]
      ensures trackId in trackArtists && !isLiked ==>
        if playlistId.Some? && playlistId.value in old(rows) then
          && r == Ok(trackArtists[trackId])
          && nextId == old(nextId)
          && rows == old(rows)[playlistId.value := WithTrackAction(old(rows)[playlistId.value], action, trackId)]
        else
          r == Err(DoesNotExist) && rows == old(rows) && nextId == old(nextId)
      ensures trackId in trackArtists && isLiked ==>
        var liked := LikesPlaylistsOf(old(rows), user.id);
        && (|liked| > 1 ==> r == Err(MultipleObjectsReturned) && rows == old(rows) && nextId == old(nextId))
        && (|liked| == 1 ==>
              && r == Ok(trackArtists[trackId])
              && nextId == old(nextId)
              && forall k | k in liked :: rows == old(rows)[k := WithTrackAction(old(rows)[k], action, trackId)])
        && (|liked| == 0 && TitleInUse(old(rows), DefaultPlaylistTitle) ==>
              r == Err(IntegrityError) && rows == old(rows) && nextId == old(nextId))
        && (|liked| == 0 && !TitleInUse(old(rows), DefaultPlaylistTitle) ==>
              && r == Ok(trackArtists[trackId])
              && nextId == old(nextId) + 1
              && rows == old(rows)[old(nextId) := WithTrackAction(NewLikesPlaylist(user.id), action, trackId)])
    {
      if trackId !in trackArtists {
        return Err(NotFound);
      }
      ghost var liked := LikesPlaylistsOf(rows, user.id);
      var playlistKey: int;
      if isLiked {
        var fetched := FetchOrCreateUserLikesPlaylist(user);
        if fetched.Err? {
          return Err(fetched.error);
        }
        playlistKey := fetched.value;
        if |liked| == 1 {
          forall k | k in liked ensures k == playlistKey {
            SingletonMembers(liked, k, playlistKey);
          }
        }
      } else {
        if playlistId.None? || playlistId.value !in rows {
          return Err(DoesNotExist);
        }
        playlistKey := playlistId.value;
      }
      rows := rows[playlistKey := WithTrackAction(rows[playlistKey], action, trackId)];
      r := Ok(trackArtists[trackId]);
    }

    /** `delete_playlist`: only the owner may delete, and never the
        liked-tracks playlist. */
    method DeletePlaylist(user: User, playlistId: int) returns (r: Outcome)
      requires Valid()
      modifies this`rows
      ensures Valid()
      ensures playlistId !in old(rows) ==> r == Fail(NotFound) && rows == old(rows)
      ensures playlistId in old(rows)
              && (old(rows)[playlistId].ownerId != user.id || old(rows)[playlistId].isLikedPlaylist)
              ==> r == Fail(PermissionDenied) && rows == old(rows)
      ensures r.Pass? <==> playlistId in old(rows) && old(rows)[playlistId].ownerId == user.id
                           && !old(rows)[playlistId].isLikedPlaylist
      ensures r.Pass? ==> rows == old(rows) - {playlistId}
    {
      if playlistId !in rows {
        return Fail(NotFound);
      }
      var playlist := rows[playlistId];
      if user.id != playlist.ownerId || playlist.isLikedPlaylist {
        return Fail(PermissionDenied);
      }
      rows := rows - {playlistId};
      return Pass;
    }

    /** `update_playlist`: the owner sets title, image and visibility; the
        unique title refuses a title another playlist has. */
    method UpdatePlaylist(user: User, title: string, image: Option<string>, playlistId: int, isPublic: bool)
      returns (r: Outcome)
      requires Valid()
      modifies this`rows
      ensures Valid()
      ensures playlistId !in old(rows) ==> r == Fail(NotFound) && rows == old(rows)
      ensures playlistId in old(rows) && old(rows)[playlistId].ownerId != user.id
              ==> r == Fail(PermissionDenied) && rows == old(rows)
      ensures playlistId in old(rows) && old(rows)[playlistId].ownerId == user.id
              && TitleUsedByOther(old(rows), title, playlistId)
              ==> r == Fail(IntegrityError) && rows == old(rows)
      ensures r.Pass? <==> playlistId in old(rows) && old(rows)[playlistId].ownerId == user.id
                           && !TitleUsedByOther(old(rows), title, playlistId)
      ensures r.Pass? ==>
        rows == old(rows)[playlistId := old(rows)[playlistId].(title := title, image := image, isPublic := isPublic)]
    {
      if playlistId !in rows {
        return Fail(NotFound);
      }
      var playlist := rows[playlistId];
      if playlist.ownerId != user.id {
        return Fail(PermissionDenied);
      }
      if TitleUsedByOther(rows, title, playlistId) {
        return Fail(IntegrityError);
      }
      rows := rows[playlistId := playlist.(title := title, image := image, isPublic := isPublic)];
      return Pass;
    }
  }
}
