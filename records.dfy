/** The `Song` and `Playlist` records and the `get_songs` construction. */
module Records {
  import opened Wrappers

  /**
   * A saved track. Its language label `lan` starts out unset (`None`) and is
   * written in place by label resolution; the other fields never change.
   */
  class Song {
    const name: string
    const artist: string
    const uri: string
    var lan: Option<string>

    constructor (name: string, artist: string, uri: string)
      ensures this.name == name && this.artist == artist && this.uri == uri
      ensures lan == None
    {
      this.name := name;
      this.artist := artist;
      this.uri := uri;
      lan := None;
    }
  }

  /** A playlist as listed by the remote: its display name, its id and (unused here) its songs. */
  datatype Playlist = Playlist(name: string, playlistId: string, songs: seq<string>)

  /** `Playlist(name, playlist_id, songs=None)`: a missing or empty song list becomes `[]`. */
  function MakePlaylist(name: string, playlistId: string, songs: Option<seq<string>>): (p: Playlist)
    ensures p.name == name && p.playlistId == playlistId
    ensures songs.Some? && songs.value != [] ==> p.songs == songs.value
    ensures songs.None? || songs.value == [] ==> p.songs == []
  {
    Playlist(name, playlistId, if songs.Some? then songs.value else [])
  }

  /** The fields `get_songs` reads from one saved-track item: track name, first artist's name, URI. */
  datatype SavedTrack = SavedTrack(name: string, artist: string, uri: string)

  /** The songs are pairwise distinct objects. */
  predicate Distinct(songs: seq<Song>)
  {
    forall i, j :: 0 <= i < j < |songs| ==> songs[i] != songs[j]
  }

  /** `get_songs`: one fresh `Song` per saved-track item, in order, all unlabelled. */
  method GetSongs(items: seq<SavedTrack>) returns (songs: seq<Song>)
    ensures |songs| == |items| && Distinct(songs)
    ensures forall i :: 0 <= i < |items| ==> fresh(songs[i])
    ensures forall i :: 0 <= i < |items| ==>
      songs[i].name == items[i].name && songs[i].artist == items[i].artist &&
      songs[i].uri == items[i].uri && songs[i].lan == None
  {
    songs := [];
    for i := 0 to |items|
      invariant |songs| == i && Distinct(songs)
      invariant forall k :: 0 <= k < i ==> fresh(songs[k])
      invariant forall k :: 0 <= k < i ==>
        songs[k].name == items[k].name && songs[k].artist == items[k].artist &&
        songs[k].uri == items[k].uri && songs[k].lan == None
    {
      var song := new Song(items[i].name, items[i].artist, items[i].uri);
      songs := songs + [song];
    }
  }
}
