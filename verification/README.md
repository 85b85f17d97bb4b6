# music_app bookkeeping, modelled in Dafny

This project models the bookkeeping at the core of the music_app Django project, with proofs about it.

On the statistics side it covers:

- the per-user listening history: "was this track heard today", the push of a new play at the front, and the grouping of a history by calendar day;
- the `save` overrides of the Mongo documents `UserArtistsFollow`, `TrackListening` and `ArtistUniqueListeners`;
- the `$addToSet` and `$setOnInsert` helpers behind unique listeners and artist follows.

On the catalogue side it covers:

- the publication status of albums and tracks, and their release;
- staff moderation (approve and reject);
- the lookup of a music object by type name;
- the artist owner check;
- the playlist operations: like and unlike a track, delete a playlist, update a playlist.

How the system is represented:

- A Mongo collection is a class whose field maps the key of a document (a user id or an artist id) to its contents.
- The `Playlist` table is a class holding a map from row id to `Playlist` values.
- An album or a track is a `MusicObject` whose `status` and `releaseDate` fields are updated in place.
- Exceptions the Python code raises are the `Error` values of `Base.Result` and `Base.Outcome`.
- Timestamps are integer microseconds. `Base.Day` is the calendar day: floor division by the length of a day.
- The current time is a parameter `now`.

Files:

| file | module | contents |
|---|---|---|
| base.dfy | Base | Option, Result, Outcome, errors, users, days |
| id_lists.dfy | IdLists | `list(set(...))` as `Dedupe`, `$addToSet` as `AddToSet` |
| statistics_models.dfy | StatisticsModels | the statistics documents and their `save` |
| statistics_services.dfy | StatisticsServices | listening history and grouping by day |
| music_models.dfy | MusicModels | status, release, unique listeners, playlist rows |
| music_services.dfy | MusicServices | the service functions of `music/services/services.py` |
| admin_services.dfy | AdminServices | staff check, approve, reject |

## Model

| member | source | states |
|---|---|---|
| Base.DayStart | music_app/music_statistics/services.py:52 | midnight of the day of `ts`: a whole number of days, at most `ts`, less than one day before it, and on the same day |
| Base.InTodayIffSameDay | music_app/music_statistics/services.py:52-56 | a time lies in `[today_start, today_start + 1 day)` exactly when it is on the day of `now` |
| IdLists.Dedupe | music_app/music_statistics/models.py:11 | `list(set(xs))` has no duplicates, has the same members as `xs`, and is no longer than `xs` |
| IdLists.DedupeOfDistinct | music_app/music_statistics/models.py:42 | a list that already has no duplicates keeps its members, and in the model's first-occurrence order it is left as it is |
| IdLists.DedupeIdempotent | music_app/music_statistics/models.py:42 | deduplicating twice gives what deduplicating once gives |
| IdLists.AddToSet | music_app/music/services/services.py:35 | `$addToSet`: the id is a member afterwards, membership is the old members plus the id, a present id changes nothing, an absent one is appended, and no duplicates are introduced |
| IdLists.AddToSetIdempotent | music_app/music/services/services.py:109 | adding the same id twice gives what adding it once gives |
| StatisticsModels.UserArtistsFollow.Save | music_app/music_statistics/models.py:10-12 | after save, `artists` has no duplicates and the same members as before, and it is the stored document of the user |
| StatisticsModels.ArtistUniqueListeners.Save | music_app/music_statistics/models.py:41-43 | after save, `listeners` has no duplicates and the same members as before, and it is the stored document of the artist |
| StatisticsModels.StoredTime | music_app/music_statistics/models.py:17 | a stored date keeps milliseconds: a multiple of 1000, at most 999 microseconds before the original, on the same day |
| StatisticsModels.DayWindowIsDay | music_app/music_statistics/models.py:22-26 | the intended window of the lookup, `[midnight, next midnight)` (InDayWindow), holds a time exactly when it is on that day |
| StatisticsModels.QueryUpperBoundAsWritten | music_app/music_statistics/models.py:25 | the upper bound `datetime.combine(day, time.max)` reaches the store cut to milliseconds, 23:59:59.999 |
| StatisticsModels.AsWrittenQueryAllowsTwoRecordsOnOneDay | music_app/music_statistics/models.py:22-29 | with the bounds the store receives (InQueryWindowAsWritten), a play stored at 23:59:59.999 is not found by a later play that day, and the track ends up with two records on one day |
| StatisticsModels.RecordInWindowIffSameDay | music_app/music_statistics/models.py:22-27 | the intended lookup (HasRecordInWindow) finds a record exactly when some stored record of the track, of any user, is on that day |
| StatisticsModels.TrackListening.SaveAsWritten | music_app/music_statistics/models.py:15-22 | as written, the lookup `TrackListening.objects` raises AttributeError on an embedded document, and nothing is stored |
| StatisticsModels.TrackListening.Save | music_app/music_statistics/models.py:19-29 | as intended, nothing is stored when a record of the same track (of any user) lies in the day's window; otherwise the record is appended; no track ever has two records on one day |
| StatisticsModels.StoredPlayBlocksSameDay | music_app/music_statistics/models.py:20-28 | once a play is stored, a later save of the same track on the same day finds it |
| StatisticsServices.AnyInWindow | music_app/music_statistics/services.py:55-58 | the `any(...)` holds exactly when some entry has the track id and a time in `[today_start, today_end)` |
| StatisticsServices.IsTrackListenedToday | music_app/music_statistics/services.py:47-58 | false without a document or without `listened_tracks`; otherwise true exactly when some entry of the track is on the day of `now` |
| StatisticsServices.Listen | music_app/music_statistics/services.py:30-44 | the collection after a play: unchanged when the track was heard today; otherwise the user's list is the new entry followed by the old list, the document exists, and other users are untouched |
| StatisticsServices.ListeningHistoryCollection.AddTrackToListeningHistory | music_app/music_statistics/services.py:30-44 | a track already heard today leaves the collection unchanged; otherwise exactly one entry `{track, now}` is put in front of the older entries, whose order is kept, the document is created when missing, and other users are untouched |
| StatisticsServices.ListenMarksTrackToday | music_app/music_statistics/services.py:40-44 | after a play, also one that created the document, the track counts as heard for the rest of that day |
| StatisticsServices.ListenIdempotentSameDay | music_app/music_statistics/services.py:32-33 | a second play of the same track on the same day changes nothing |
| StatisticsServices.OnDay | music_app/music_statistics/services.py:72-74 | the entries of a day: exactly the input entries heard that day |
| StatisticsServices.OnDayOfOne | music_app/music_statistics/services.py:72-74 | one entry lands in the group of its own day and in no other |
| StatisticsServices.OnDayOfConcat | music_app/music_statistics/services.py:72-74 | grouping keeps input order and multiplicity: the day's entries of `a + b` are those of `a` followed by those of `b` |
| StatisticsServices.GroupTracksByDate | music_app/music_statistics/services.py:68-76 | the keys are exactly the days of the input, and each group is the input's entries of that day in input order, each copied as `{track_id, listened_at}` |
| StatisticsServices.GroupSizesSum | music_app/music_statistics/services.py:70-76 | the group sizes add up to the input length: grouping loses and duplicates nothing |
| StatisticsServices.EntryInOwnGroupOnly | music_app/music_statistics/services.py:73-74 | every entry is in the group of its own day and in no other |
| MusicModels.DeclaredStatus | music_app/music/models.py:37-39 | `Music.Status` has a member for DRAFT and PUBLISHED and for no other name |
| MusicModels.MusicObject.constructor | music_app/music/models.py:45-52 | a new album or track is a draft without a release date |
| MusicModels.ReleaseDate | music_app/music/models.py:59-60 | a release always leaves a date: an existing one is kept, a missing one becomes `now` |
| MusicModels.ReleaseDateSettles | music_app/music/models.py:57-62 | releasing again at any later time keeps the first release date |
| MusicModels.MusicObject.Release | music_app/music/models.py:57-62 | keeps an existing release date, stamps a missing one, publishes; `Album.release` and `Track.release` (lines 69-70, 81-82) call it unchanged |
| MusicModels.WithUniqueListener | music_app/music/models.py:19-24 | after recording a listener, the artist's document exists, holds the listener, has no duplicates, has the old members plus the listener; the set of documents gains at most that artist, and every other artist's document keeps its exact contents |
| MusicModels.WithPresentListener | music_app/music/models.py:23-24 | recording a listener the document already holds keeps its members, and in the model's chosen order changes nothing |
| MusicModels.WithUniqueListenerIdempotent | music_app/music/models.py:23-24 | recording the same listener twice stores what recording it once does |
| MusicModels.Artist.UpdateUniqueListeners | music_app/music/models.py:19-24 | the listener collection afterwards is the one described by WithUniqueListener, with the document created when absent |
| MusicModels.NewLikesPlaylist | music_app/music/models.py:85-97 | a playlist created with the defaults has the title "favorite" and no image, belongs to its owner, is private, has no tracks, and is the liked-tracks playlist |
| MusicServices.FetchOrCreateArtistUniqueListeners | music_app/music/services/services.py:16-27 | an existing document is returned untouched; a missing one is created with an empty list and returned |
| MusicServices.AddUniqueListenerToArtist | music_app/music/services/services.py:30-35 | the listener joins an existing document by `$addToSet`; without a document nothing is written |
| MusicServices.FollowForArtist | music_app/music/services/services.py:104-109 | the artist joins the user's followed set, and the document is created when missing |
| MusicServices.Lower | music_app/music/services/services.py:50 | `obj_type.lower()`: same length, no upper-case ASCII letter remains, each upper-case letter becomes its lower-case letter, and every other character is kept |
| MusicServices.TypeModel | music_app/music/services/services.py:48 | `TYPE_MODEL_MAP`: "artist" selects the Artist table, "album" Album, "track" Track, and no other name selects a table |
| MusicServices.FetchMusicObjectsByIdAndTypeAsWritten | music_app/music/services/services.py:46-56 | as written, an unknown type raises UnboundLocalError and no other error is possible; a known type returns exactly the intended lookup |
| MusicServices.UnknownTypeRaisesAsWritten | music_app/music/services/services.py:51-55 | the type "playlist" makes the written lookup raise UnboundLocalError |
| MusicServices.FetchMusicObjectsByIdAndType | music_app/music/services/services.py:46-56 | a row is returned exactly when the lower-cased type names a table that has the id; the result has that id and table; otherwise None |
| MusicServices.FetchIgnoresCase | music_app/music/services/services.py:50 | the type is matched without regard to case |
| MusicServices.ReleaseMusicObjectAsWritten | music_app/music/services/services.py:59-64 | as written, an object without a release date raises AttributeError and keeps its status; a dated object is published |
| MusicServices.ReleaseMusicObject | music_app/music/services/services.py:59-64 | as intended, runs `Music.release`: keeps an existing release date, stamps a missing one, publishes |
| MusicServices.UpdateMusicObjectStatus | music_app/music/services/services.py:67-70 | sets the status to the given one and changes nothing else |
| MusicServices.CheckIsUserArtistOwner | music_app/music/services/services.py:168-174 | succeeds exactly when the user's only artist is `artist_id`; no artist raises DoesNotExist, several raise MultipleObjectsReturned, one other artist raises PermissionDenied |
| MusicServices.TracksAfterAction | music_app/music/services/services.py:127-130 | "like" adds the track, "unlike" removes it, any other action keeps the set; no other track changes |
| MusicServices.LikeThenUnlike | music_app/music/services/services.py:127-130 | unliking a track that was liked into a playlist without it restores the playlist |
| MusicServices.WithTrackAction | music_app/music/services/services.py:127-130 | the action changes the playlist's tracks and no other field |
| MusicServices.PlaylistTable.FetchOrCreateUserLikesPlaylist | music_app/music/services/services.py:201-204 | several liked-tracks playlists raise MultipleObjectsReturned, one is returned, none creates one with the default title unless that title is taken (IntegrityError); titles stay unique |
| MusicServices.PlaylistTable.ManageTrack | music_app/music/services/services.py:117-131 | a missing track raises Http404, a missing playlist DoesNotExist; otherwise the action is applied to exactly the resolved playlist and the track's artist id is returned |
| MusicServices.PlaylistTable.DeletePlaylist | music_app/music/services/services.py:146-152 | a missing playlist raises Http404; a non-owner or the liked-tracks playlist raises PermissionDenied with no change; otherwise exactly that row is removed |
| MusicServices.PlaylistTable.UpdatePlaylist | music_app/music/services/services.py:155-164 | a missing playlist raises Http404, a non-owner PermissionDenied with no change, a title held by another playlist IntegrityError; otherwise exactly title, image and visibility are set |
| AdminServices.CheckStaffPermissions | music_app/music/services/admin_services.py:8-12 | PermissionDenied exactly when the user is not staff |
| AdminServices.ApproveMusicObject | music_app/music/services/admin_services.py:15-18 | a non-staff user is refused and the status is unchanged; staff sets the status to ACTIVE and nothing else |
| AdminServices.RejectMusicObject | music_app/music/services/admin_services.py:21-24 | a non-staff user is refused and the status is unchanged; staff sets the status to REJECTED and nothing else |
| AdminServices.ModerateAsWritten | music_app/music/services/admin_services.py:15-24 | as written, a staff user's status name must be a declared member of `Music.Status`, otherwise AttributeError, and on success the status is that declared member; non-staff get PermissionDenied first |
| AdminServices.ModerationAsWrittenAlwaysRaises | music_app/music/services/admin_services.py:18-24 | as written, approval and rejection always raise: AttributeError for staff, PermissionDenied for anyone else |

## Left out

- Audio streaming over HTTP ranges: the modelled files contain no such operation.
- The database and the Mongo connection (`music_app/mongo.py`, pymongo, mongoengine) are replaced by the in-memory collections described above. Transactions are not modelled because every modelled failure happens before the first write.
- Clock: `datetime.now()` becomes the parameter `now`. The model also ignores time zones.
- StatisticsServices.ListeningHistoryCollection.AddTrackToListeningHistory: one `now` serves both the "heard today" check and the new entry. The source reads the clock twice, so a call that straddles midnight is not modelled.
- Day keys: `strftime("%Y-%m-%d")` in `group_tracks_by_date` is abstracted as the integer `Day`. The string formatting of dates is left out.
- StatisticsModels.UserArtistsFollow.Save: fixes one order of the deduplicated list (first occurrences, in input order), because Python's `list(set(...))` order is unspecified. The same applies to StatisticsModels.ArtistUniqueListeners.Save.
- StatisticsModels.TrackListening.Save: models the save as intended, over a collection of records of its own. The code as written raises before storing anything (see StatisticsModels.TrackListening.SaveAsWritten and "## Findings").
- IdLists.DedupeOfDistinct: the list comes back unchanged only because the model keeps first occurrences. `list(set(...))` guarantees only the same members, so the source may reorder the list.
- IdLists.DedupeIdempotent: the equality holds for the model's chosen order. The source guarantees only equal membership.
- MusicModels.WithPresentListener: the stored list comes back unchanged only in the model's chosen order. The source may reorder it on save, though its members are unchanged.
- MusicModels.WithUniqueListenerIdempotent: the equality holds for the model's chosen order. The source guarantees only equal membership.
- Concurrency: calls are modelled one at a time. `add_track_to_listening_history` reads the history and then pushes in a separate step, so two plays running at once can both push the same track on the same day. `Artist.update_unique_listeners` loads, appends and saves back the whole list, so a listener added by a concurrent call can be lost. The idempotence lemmas hold only for calls made one after another.
- Documents are found by their key. The source's `.first()` choice among several documents with the same `artist_id` or `user_id` is not modelled.
- `fetch_or_create_users_favorite_artists` and the other query-only fetchers are thin database lookups and are not modelled. Among them are `fetch_track_by_id`, `fetch_album_by_id`, `fetch_artists_album`, `fetch_my_playlists`, `fetch_music_chart` and `create_track_map`. The follow collection is named `user_artists_follows` in `follow_for_artist` but `user_artists_follow` in that fetcher.
- MusicServices.Lower: lower-cases ASCII letters only. Python's `str.lower` also maps non-ASCII letters.
- Image files: `image` is an optional string, and uploads and storage are left out.
- `create_artist`, `create_album` and everything in forms, views, URLs, mixins and the admin are form handling and framework glue, and are not modelled.
- The user of a playlist or an artist is identified by the user id alone. Django's user equality compares primary keys.

## Findings

| source | as written | input that shows it | evidently intended | confidence | as-written member | corrected member |
|---|---|---|---|---|---|---|
| music_app/music_statistics/models.py:22 | `TrackListening` is an embedded document (line 15), and mongoengine gives the `objects` manager only to top-level documents, so `TrackListening.objects(...)` raises AttributeError | any call of `TrackListening.save` | look up the stored records of the track on that day | medium, not executed | StatisticsModels.TrackListening.SaveAsWritten | StatisticsModels.TrackListening.Save |
| music_app/music_statistics/models.py:25 | the upper bound `datetime.combine(day, time.max)` reaches the store as the BSON date 23:59:59.999, so `$lt` misses a record stored in the last millisecond of the day | plays of one track at 23:59:59.9995 and then 23:59:59.9996 of the same day store two records | the window ends at the next midnight, so each track is stored at most once per day | high, not executed | StatisticsModels.AsWrittenQueryAllowsTwoRecordsOnOneDay | StatisticsModels.TrackListening.Save |
| music_app/music/services/admin_services.py:18 | passes `models.Music.Status.ACTIVE` and `REJECTED` (line 24), but `Music.Status` declares only DRAFT and PUBLISHED (music_app/music/models.py:37-39), so every staff approval or rejection raises AttributeError | a staff user approving any album | staff moves the object to an ACTIVE or REJECTED status | high, not executed | AdminServices.ModerationAsWrittenAlwaysRaises | AdminServices.ApproveMusicObject |
| music_app/music/services/services.py:55 | for an unknown type, the `except` tuple reads `model_class` before it is bound, so UnboundLocalError escapes instead of None | `obj_type = "playlist"` | an unknown type returns None | high, not executed | MusicServices.UnknownTypeRaisesAsWritten | MusicServices.FetchMusicObjectsByIdAndType |
| music_app/music/services/services.py:62 | `timezone` is `datetime.timezone` (line 1), which has no `now`, so releasing an undated object raises AttributeError | a draft with `release_date = None` | stamp the current time, as `Music.release` does | high, not executed | MusicServices.ReleaseMusicObjectAsWritten | MusicServices.ReleaseMusicObject |
