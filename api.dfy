/**
 * The remote playlist service as the handler sees it: which playlists exist
 * (id to display name), the ordered track URIs of each, and the log of every
 * request the handler issues. The server's verdicts (whether a write was
 * accepted, which id a new playlist got) are inputs to the request methods.
 */
module Api {
  import opened Wrappers

  /** The requests the playlist operations issue. */
  datatype Call =
    | ListTracks(playlistId: string, limit: Option<nat>)                  // GET playlists/{id}/tracks
    | RemoveTracks(playlistId: string, uris: seq<string>)                 // DELETE playlists/{id}/tracks
    | AddTracks(playlistId: string, uris: seq<string>, position: Option<nat>) // POST playlists/{id}/tracks
    | NewPlaylist(name: string, public: bool)                             // POST users/{user}/playlists

  /** `s` with every occurrence of every URI listed in `drop` removed, order kept. */
  function Without(s: seq<string>, drop: seq<string>): (r: seq<string>)
    ensures |r| <= |s|
    ensures forall x :: x in r <==> x in s && x !in drop
  {
    if s == [] then []
    else if s[0] in drop then Without(s[1..], drop)
    else [s[0]] + Without(s[1..], drop)
  }

  /** When each of the first `k` URIs of `s` is listed in `drop`, removal shortens `s` by at least `k`. */
  lemma {:induction false} WithoutShrinks(s: seq<string>, drop: seq<string>, k: nat)
    requires k <= |s|
    requires forall i :: 0 <= i < k ==> s[i] in drop
    ensures |Without(s, drop)| <= |s| - k
  {
    if k > 0 {
      assert s[0] in drop;
      WithoutShrinks(s[1..], drop, k - 1);
    }
  }

  /** `s` with `uris` inserted at `position`, or appended when no position is given. */
  function Inserted(s: seq<string>, uris: seq<string>, position: Option<nat>): seq<string>
    requires position.Some? ==> position.value <= |s|
  {
    match position
    case None => s + uris
    case Some(p) => s[..p] + uris + s[p..]
  }

  class RemoteApi {
    /** The display name of each existing playlist, by id. */
    var names: map<string, string>
    /** The track URIs of each existing playlist, by id, in playlist order. */
    var tracks: map<string, seq<string>>
    /** Every request issued so far, oldest first. */
    var log: seq<Call>

    ghost predicate Valid()
      reads this
    {
      names.Keys == tracks.Keys
    }

    constructor (names: map<string, string>, tracks: map<string, seq<string>>)
      requires names.Keys == tracks.Keys
      ensures Valid()
      ensures this.names == names && this.tracks == tracks && log == []
    {
      this.names := names;
      this.tracks := tracks;
      log := [];
    }

    /** GET the playlist's tracks without parameters; only the reported `total` is used. */
    method TrackTotal(playlistId: string) returns (total: nat)
      requires playlistId in tracks
      modifies this`log
      ensures total == |tracks[playlistId]|
      ensures log == old(log) + [ListTracks(playlistId, None)]
    {
      total := |tracks[playlistId]|;
      log := log + [ListTracks(playlistId, None)];
    }

    /** GET the playlist's tracks with `limit`: the URIs of its first `limit` items. */
    method FirstTracks(playlistId: string, limit: nat) returns (uris: seq<string>)
      requires playlistId in tracks
      modifies this`log
      ensures uris == tracks[playlistId][..Min(limit, |tracks[playlistId]|)]
      ensures log == old(log) + [ListTracks(playlistId, Some(limit))]
    {
      uris := tracks[playlistId][..Min(limit, |tracks[playlistId]|)];
      log := log + [ListTracks(playlistId, Some(limit))];
    }

    /** DELETE the listed URIs from the playlist: every occurrence of each goes. */
    method DeleteTracks(playlistId: string, uris: seq<string>)
      requires Valid() && playlistId in tracks
      modifies this`tracks, this`log
      ensures Valid()
      ensures tracks == old(tracks)[playlistId := Without(old(tracks)[playlistId], uris)]
      ensures log == old(log) + [RemoveTracks(playlistId, uris)]
    {
      tracks := tracks[playlistId := Without(tracks[playlistId], uris)];
      log := log + [RemoveTracks(playlistId, uris)];
    }

    /**
     * POST URIs into the playlist at `position` (at the end when absent).
     * `accepted` is the server's verdict; a rejected request changes nothing.
     */
    method PostTracks(playlistId: string, uris: seq<string>, position: Option<nat>, accepted: bool)
      returns (ok: bool)
      requires Valid() && playlistId in tracks
      requires position.Some? ==> position.value <= |tracks[playlistId]|
      modifies this`tracks, this`log
      ensures Valid() && ok == accepted
      ensures tracks == if accepted
        then old(tracks)[playlistId := Inserted(old(tracks)[playlistId], uris, position)]
        else old(tracks)
      ensures log == old(log) + [AddTracks(playlistId, uris, position)]
    {
      if accepted {
        tracks := tracks[playlistId := Inserted(tracks[playlistId], uris, position)];
      }
      log := log + [AddTracks(playlistId, uris, position)];
      ok := accepted;
    }

    /**
     * POST a new playlist. `created` is the id the server answers with, if any;
     * a new id names a new, empty playlist.
     */
    method PostPlaylist(name: string, public: bool, created: Option<string>) returns (id: Option<string>)
      requires Valid()
      requires created.Some? ==> created.value !in tracks
      modifies this
      ensures Valid() && id == created
      ensures names == if created.Some? then old(names)[created.value := name] else old(names)
      ensures tracks == if created.Some? then old(tracks)[created.value := []] else old(tracks)
      ensures log == old(log) + [NewPlaylist(name, public)]
    {
      if created.Some? {
        names := names[created.value := name];
        tracks := tracks[created.value := []];
      }
      log := log + [NewPlaylist(name, public)];
      id := created;
    }
  }
}
