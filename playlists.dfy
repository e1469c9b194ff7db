/**
 * The `playlists` table of `convex/playlists.ts`: three read queries, each
 * scoped to one user through the `by_user` index, and `addPlaylist`, which
 * refuses a song the user already has before inserting the arguments as a
 * new record.
 *
 * A song is "already there" by its catalog id when the arguments carry a
 * non-empty one, and otherwise by exactly equal title and artist. Records of
 * other users are never consulted, so two users may hold the same song.
 */
module Playlists {

  import opened Wrappers
  import opened JsArray
  import opened TokenRule

  const AlreadyAdded: string := "この楽曲は既にプレイリストに追加されています"

  /** A record of the table; `addPlaylist` stores its arguments as they come. */
  datatype Playlist = Playlist(
    title: string,
    artist: string,
    userId: string,
    spotifyId: Option<string>,
    albumArt: Option<string>,
    albumName: Option<string>,
    albumId: Option<string>,
    artistId: Option<string>)

  function OwnedBy(userId: string): Playlist -> bool {
    (p: Playlist) => p.userId == userId
  }

  /** `getPlaylistsByUser`: the user's records, oldest first (the index
      orders one user's records by creation time). */
  function PlaylistsByUser(table: seq<Playlist>, userId: string): (r: seq<Playlist>)
    ensures forall i :: 0 <= i < |r| ==> r[i] in table && r[i].userId == userId
    ensures forall p :: p in table && p.userId == userId ==> p in r
    ensures IsSubsequence(r, table)
    ensures KeepsCounts(r, table, OwnedBy(userId))
  {
    FilterIsSubsequence(table, OwnedBy(userId));
    FilterCount(table, OwnedBy(userId));
    Filter(table, OwnedBy(userId))
  }

  function SameSpotifyId(userId: string, spotifyId: string): Playlist -> bool {
    (p: Playlist) => p.userId == userId && p.spotifyId == Some(spotifyId)
  }

  /** `checkDuplicateBySpotifyId`: the user's first record with that id, if
      any, exists. A record without an id never equals a given id. */
  function HasSpotifyId(table: seq<Playlist>, userId: string, spotifyId: string): (b: bool)
    ensures b <==> exists p :: p in table && p.userId == userId && p.spotifyId == Some(spotifyId)
  {
    var found := First(table, SameSpotifyId(userId, spotifyId));
    assert found.None? ==> forall p :: p in table ==> !SameSpotifyId(userId, spotifyId)(p);
    found.Some?
  }

  function SameTitleArtist(userId: string, title: string, artist: string): Playlist -> bool {
    (p: Playlist) => p.userId == userId && p.title == title && p.artist == artist
  }

  /** `checkDuplicateByTitleArtist`: exact, case-sensitive comparison. */
  function HasTitleArtist(table: seq<Playlist>, userId: string, title: string, artist: string): (b: bool)
    ensures b <==> exists p :: p in table && p.userId == userId && p.title == title && p.artist == artist
  {
    var found := First(table, SameTitleArtist(userId, title, artist));
    assert found.None? ==> forall p :: p in table ==> !SameTitleArtist(userId, title, artist)(p);
    found.Some?
  }

  /** The test `addPlaylist` applies: by catalog id when the arguments carry a
      truthy one, otherwise by title and artist. */
  predicate IsDuplicate(table: seq<Playlist>, args: Playlist) {
    if Truthy(args.spotifyId) then HasSpotifyId(table, args.userId, args.spotifyId.value)
    else HasTitleArtist(table, args.userId, args.title, args.artist)
  }

  /** No user holds two records with the same non-empty catalog id. */
  predicate UniqueSpotifyIds(table: seq<Playlist>) {
    forall i, j :: 0 <= i < j < |table| && table[i].userId == table[j].userId && Truthy(table[i].spotifyId)
      ==> table[i].spotifyId != table[j].spotifyId
  }

  /** An insert that passed the check keeps the catalog ids unique. */
  lemma AcceptedInsertKeepsIdsUnique(table: seq<Playlist>, args: Playlist)
    requires UniqueSpotifyIds(table) && !IsDuplicate(table, args)
    ensures UniqueSpotifyIds(table + [args])
  {
    var t := table + [args];
    forall i, j | 0 <= i < j < |t| && t[i].userId == t[j].userId && Truthy(t[i].spotifyId)
      ensures t[i].spotifyId != t[j].spotifyId
    {
      if j == |table| {
        assert t[i] in table;
      }
    }
  }

  /** An insert by one user leaves every other user's list as it was. */
  lemma InsertLeavesOtherUsers(table: seq<Playlist>, args: Playlist, userId: string)
    requires userId != args.userId
    ensures PlaylistsByUser(table + [args], userId) == PlaylistsByUser(table, userId)
  {
    FilterAppend(table, [args], OwnedBy(userId));
    assert Filter([args], OwnedBy(userId)) == [];
  }

  /** ... and appends the record to the inserting user's list. */
  lemma InsertAppendsToOwnList(table: seq<Playlist>, args: Playlist)
    ensures PlaylistsByUser(table + [args], args.userId) == PlaylistsByUser(table, args.userId) + [args]
  {
    FilterAppend(table, [args], OwnedBy(args.userId));
    assert Filter([args], OwnedBy(args.userId)) == [args];
  }

  /** Another user's record with the same catalog id does not block an insert. */
  lemma OtherUsersDoNotBlock(table: seq<Playlist>, args: Playlist, other: Playlist)
    requires other.userId != args.userId && !IsDuplicate(table, args)
    ensures !IsDuplicate(table + [other], args)
  {
    assert forall p :: p in table + [other] && p.userId == args.userId ==> p in table;
  }

  /** The table; one instance stands for the database's `playlists` table. */
  class PlaylistTable {
    var rows: seq<Playlist>

    constructor ()
      ensures rows == []
    {
      rows := [];
    }

    /** `addPlaylist(args)`: the new record's position stands for the id the
        insert returns. */
    method AddPlaylist(args: Playlist) returns (r: Result<nat>)
      modifies this
      ensures r.Failure? <==> IsDuplicate(old(rows), args)
      ensures r.Failure? ==> r.message == AlreadyAdded && rows == old(rows)
      ensures r.Success? ==> r.value == |old(rows)| && rows == old(rows) + [args]
      ensures UniqueSpotifyIds(old(rows)) ==> UniqueSpotifyIds(rows)
    {
      var isDuplicate := false;
      if Truthy(args.spotifyId) {
        isDuplicate := HasSpotifyId(rows, args.userId, args.spotifyId.value);
      } else {
        isDuplicate := HasTitleArtist(rows, args.userId, args.title, args.artist);
      }
      if isDuplicate {
        return Failure(AlreadyAdded);
      }
      if UniqueSpotifyIds(rows) {
        AcceptedInsertKeepsIdsUnique(rows, args);
      }
      r := Success(|rows|);
      rows := rows + [args];
    }
  }
}
