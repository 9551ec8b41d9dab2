/**
 * The playlist writers of `SpotifyHandler`: `empty_playlist` (removals in
 * pages of at most 50), `update_playlist` and `create_playlist` (additions in
 * slices of at most 90).
 */
module Handler {
  import opened Wrappers
  import opened Chunking
  import opened Api

  /** The most items one removal round reads and deletes. */
  const RemoveLimit := 50
  /** The most URIs one addition request carries. */
  const AddLimit := 90

  // ---------------------------------------------------------------------------
  // empty_playlist

  /** One removal round: the URIs of the first (up to) 50 items are all deleted. */
  function DrainStep(s: seq<string>): (r: seq<string>)
    ensures |r| <= |s| - Min(RemoveLimit, |s|)
  {
    WithoutShrinks(s, s[..Min(RemoveLimit, |s|)], Min(RemoveLimit, |s|));
    Without(s, s[..Min(RemoveLimit, |s|)])
  }

  /** The playlist's contents after `n` removal rounds starting from `s`. */
  function Drained(s: seq<string>, n: nat): seq<string>
  {
    if n == 0 then s else DrainStep(Drained(s, n - 1))
  }

  /** The requests of `n` removal rounds starting from `s`: read the first page, delete its URIs. */
  function DrainCalls(playlistId: string, s: seq<string>, n: nat): seq<Call>
  {
    if n == 0 then []
    else
      var t := Drained(s, n - 1);
      DrainCalls(playlistId, s, n - 1) +
        [ListTracks(playlistId, Some(RemoveLimit)), RemoveTracks(playlistId, t[..Min(RemoveLimit, |t|)])]
  }

  /** Round `n + 1` reads the first page of what `n` rounds left and deletes its URIs. */
  lemma DrainCallsStep(playlistId: string, s: seq<string>, n: nat)
    ensures Drained(s, n + 1) == DrainStep(Drained(s, n))
    ensures DrainCalls(playlistId, s, n + 1) == DrainCalls(playlistId, s, n) +
      [ListTracks(playlistId, Some(RemoveLimit)), RemoveTracks(playlistId, Drained(s, n)[..Min(RemoveLimit, |Drained(s, n)|)])]
  {
  }

  /** Each removal round is two requests. */
  lemma {:induction false} DrainCallsLength(playlistId: string, s: seq<string>, n: nat)
    ensures |DrainCalls(playlistId, s, n)| == 2 * n
  {
    if n > 0 {
      DrainCallsLength(playlistId, s, n - 1);
    }
  }

  /** Each round removes at least 50 items while there are that many. */
  lemma {:induction false} DrainedShrinks(s: seq<string>, n: nat)
    ensures |Drained(s, n)| <= if |s| <= n * RemoveLimit then 0 else |s| - n * RemoveLimit
  {
    if n > 0 {
      DrainedShrinks(s, n - 1);
    }
  }

  /** `ceil(total / 50)` rounds leave the playlist empty. */
  lemma DrainedEmpty(s: seq<string>)
    ensures Drained(s, CeilDiv(|s|, RemoveLimit)) == []
  {
    DrainedShrinks(s, CeilDiv(|s|, RemoveLimit));
  }

  /** One round of `empty_playlist`: read the first page of up to 50 items and delete their URIs. */
  method DrainRound(api: RemoteApi, playlistId: string)
    requires api.Valid() && playlistId in api.tracks
    modifies api`tracks, api`log
    ensures api.Valid()
    ensures api.tracks == old(api.tracks)[playlistId := DrainStep(old(api.tracks)[playlistId])]
    ensures api.log == old(api.log) + [ListTracks(playlistId, Some(RemoveLimit)),
      RemoveTracks(playlistId, old(api.tracks)[playlistId][..Min(RemoveLimit, |old(api.tracks)[playlistId]|)])]
  {
    var page := api.FirstTracks(playlistId, RemoveLimit);
    api.DeleteTracks(playlistId, page);
  }

  /**
   * `empty_playlist`: the number of rounds is `ceil(total / 50)` for the total
   * read once at entry; each round reads the current first page of up to 50
   * items and deletes their URIs. The playlist ends empty.
   */
  method EmptyPlaylist(api: RemoteApi, playlistId: string)
    requires api.Valid() && playlistId in api.tracks
    modifies api`tracks, api`log
    ensures api.Valid()
    ensures api.tracks == old(api.tracks)[playlistId := []]
    ensures api.log == old(api.log) + [ListTracks(playlistId, None)] +
      DrainCalls(playlistId, old(api.tracks)[playlistId], CeilDiv(|old(api.tracks)[playlistId]|, RemoveLimit))
  {
    ghost var s := api.tracks[playlistId];
    var total := api.TrackTotal(playlistId);
    ghost var log0 := api.log;
    var rounds := CeilDiv(total, RemoveLimit);
    for r := 0 to rounds
      invariant api.Valid()
      invariant api.tracks == old(api.tracks)[playlistId := Drained(s, r)]
      invariant api.log == log0 + DrainCalls(playlistId, s, r)
    {
      DrainCallsStep(playlistId, s, r);
      DrainRound(api, playlistId);
    }
    DrainedEmpty(s);
  }

  // ---------------------------------------------------------------------------
  // update_playlist and create_playlist

  /** The addition request for slice `i`, with `position = i * 90` when `positioned`. */
  function AddCall(playlistId: string, songs: seq<string>, i: nat, positioned: bool): Call
  {
    AddTracks(playlistId, Chunk(songs, i, AddLimit), if positioned then Some(i * AddLimit) else None)
  }

  /** The addition requests for the first `k` slices of `songs`, in order. */
  function AddCalls(playlistId: string, songs: seq<string>, k: nat, positioned: bool): (calls: seq<Call>)
    ensures |calls| == k
  {
    if k == 0 then [] else AddCalls(playlistId, songs, k - 1, positioned) + [AddCall(playlistId, songs, k - 1, positioned)]
  }

  /** One more slice appends its request. */
  lemma AddCallsStep(playlistId: string, songs: seq<string>, i: nat, positioned: bool)
    ensures AddCalls(playlistId, songs, i + 1, positioned) ==
      AddCalls(playlistId, songs, i, positioned) + [AddCall(playlistId, songs, i, positioned)]
  {
  }

  /** One more slice adds its URIs to what is kept when the server accepts it, and nothing otherwise. */
  lemma KeptStep(s: seq<string>, songs: seq<string>, i: nat, accepted: nat -> bool)
    ensures s + Kept(songs, AddLimit, i + 1, accepted) ==
      if accepted(i) then s + Kept(songs, AddLimit, i, accepted) + Chunk(songs, i, AddLimit)
      else s + Kept(songs, AddLimit, i, accepted)
  {
    if accepted(i) {
      assert s + Kept(songs, AddLimit, i + 1, accepted) == s + Kept(songs, AddLimit, i, accepted) + Chunk(songs, i, AddLimit);
    } else {
      assert Kept(songs, AddLimit, i + 1, accepted) == Kept(songs, AddLimit, i, accepted) + [];
    }
  }

  /** Request `i` of `AddCalls` carries slice `i` of `songs`. */
  lemma {:induction false} AddCallsAt(playlistId: string, songs: seq<string>, k: nat, positioned: bool, i: nat)
    requires i < k
    ensures AddCalls(playlistId, songs, k, positioned)[i] == AddCall(playlistId, songs, i, positioned)
  {
    if i < k - 1 {
      AddCallsAt(playlistId, songs, k - 1, positioned, i);
    }
  }

  /**
   * The bodies of the `ceil(|songs| / 90)` addition requests: each carries
   * between 1 and 90 URIs, and together, in order, they are `songs`.
   */
  lemma AddCallsCarrySongs(playlistId: string, songs: seq<string>, positioned: bool)
    ensures forall i :: 0 <= i < CeilDiv(|songs|, AddLimit) ==>
      AddCalls(playlistId, songs, CeilDiv(|songs|, AddLimit), positioned)[i] ==
      AddTracks(playlistId, Chunks(songs, AddLimit, CeilDiv(|songs|, AddLimit))[i], if positioned then Some(i * AddLimit) else None)
    ensures forall i :: 0 <= i < CeilDiv(|songs|, AddLimit) ==> 0 < |Chunk(songs, i, AddLimit)| <= AddLimit
    ensures Concat(Chunks(songs, AddLimit, CeilDiv(|songs|, AddLimit))) == songs
  {
    var k := CeilDiv(|songs|, AddLimit);
    forall i | 0 <= i < k
      ensures AddCalls(playlistId, songs, k, positioned)[i] ==
        AddTracks(playlistId, Chunks(songs, AddLimit, k)[i], if positioned then Some(i * AddLimit) else None)
      ensures 0 < |Chunk(songs, i, AddLimit)| <= AddLimit
    {
      AddCallsAt(playlistId, songs, k, positioned, i);
      ChunksAt(songs, AddLimit, k, i);
      ChunkSize(songs, AddLimit, i);
    }
    ChunksReassemble(songs, AddLimit);
  }

  /** One request of `update_playlist`: slice `i`, appended with no position. */
  method AppendSlice(api: RemoteApi, playlistId: string, songs: seq<string>, i: nat, accepted: bool)
    returns (ok: bool)
    requires api.Valid() && playlistId in api.tracks
    modifies api`tracks, api`log
    ensures api.Valid() && ok == accepted
    ensures api.tracks == if accepted
      then old(api.tracks)[playlistId := old(api.tracks)[playlistId] + Chunk(songs, i, AddLimit)]
      else old(api.tracks)
    ensures api.log == old(api.log) + [AddCall(playlistId, songs, i, false)]
  {
    ChunkIsSlice(songs, i, AddLimit);
    var uris := songs[Min(i * AddLimit, |songs|)..Min(i * AddLimit + AddLimit, |songs|)];
    ok := api.PostTracks(playlistId, uris, None, accepted);
  }

  /**
   * `update_playlist`: one append request per slice of 90, with no position
   * and no look at the answers. `accepted(i)` is the server's verdict on slice
   * `i`; only accepted slices reach the playlist.
   */
  method UpdatePlaylist(api: RemoteApi, playlistId: string, songs: seq<string>, accepted: nat -> bool)
    requires api.Valid() && playlistId in api.tracks
    modifies api`tracks, api`log
    ensures api.Valid()
    ensures api.tracks == old(api.tracks)[playlistId :=
      old(api.tracks)[playlistId] + Kept(songs, AddLimit, CeilDiv(|songs|, AddLimit), accepted)]
    ensures api.log == old(api.log) + AddCalls(playlistId, songs, CeilDiv(|songs|, AddLimit), false)
  {
    ghost var s := api.tracks[playlistId];
    assert s + Kept(songs, AddLimit, 0, accepted) == s;
    for i := 0 to CeilDiv(|songs|, AddLimit)
      invariant api.Valid()
      invariant api.tracks == old(api.tracks)[playlistId := s + Kept(songs, AddLimit, i, accepted)]
      invariant api.log == old(api.log) + AddCalls(playlistId, songs, i, false)
    {
      KeptStep(s, songs, i, accepted);
      AddCallsStep(playlistId, songs, i, false);
      var _ := AppendSlice(api, playlistId, songs, i, accepted(i));
    }
  }

  /** When every slice is accepted, `update_playlist` appends exactly `songs`. */
  lemma UpdateAppendsAll(songs: seq<string>, accepted: nat -> bool)
    requires forall i :: 0 <= i < CeilDiv(|songs|, AddLimit) ==> accepted(i)
    ensures Kept(songs, AddLimit, CeilDiv(|songs|, AddLimit), accepted) == songs
  {
    KeptAll(songs, AddLimit, CeilDiv(|songs|, AddLimit), accepted);
    ChunksReassemble(songs, AddLimit);
  }

  /** The first slice index below `k`, from `i` on, that the server rejects; `k` if none. */
  function FirstRejectedFrom(accepted: nat -> bool, i: nat, k: nat): (m: nat)
    requires i <= k
    ensures i <= m <= k
    ensures forall j :: i <= j < m ==> accepted(j)
    ensures m < k ==> !accepted(m)
    decreases k - i
  {
    if i == k then k else if !accepted(i) then i else FirstRejectedFrom(accepted, i + 1, k)
  }

  /** The first rejected slice below `k`; `k` if every slice is accepted. */
  function FirstRejected(accepted: nat -> bool, k: nat): (m: nat)
    ensures m <= k
    ensures forall j :: 0 <= j < m ==> accepted(j)
    ensures m < k ==> !accepted(m)
  {
    FirstRejectedFrom(accepted, 0, k)
  }

  /** A usable playlist id: present and non-empty (`if not playlist_id` rejects both `None` and `""`). */
  predicate Usable(created: Option<string>)
  {
    created.Some? && created.value != ""
  }

  /** The first `i` slices of `songs`, as they stand after `i` accepted positioned posts. */
  function Placed(songs: seq<string>, i: nat): (r: seq<string>)
    ensures |r| <= |songs|
  {
    songs[..Min(i * AddLimit, |songs|)]
  }

  /**
   * Inserting slice `i` at `position = i * 90` into the first `i` slices
   * gives the first `i + 1` slices.
   */
  lemma PositionedStep(songs: seq<string>, i: nat)
    requires i < CeilDiv(|songs|, AddLimit)
    ensures i * AddLimit == |Placed(songs, i)|
    ensures Inserted(Placed(songs, i), Chunk(songs, i, AddLimit), Some(i * AddLimit)) == Placed(songs, i + 1)
  {
    ChunkSize(songs, AddLimit, i);
    MulSucc(i, AddLimit);
    var lo, hi := i * AddLimit, Min((i + 1) * AddLimit, |songs|);
    assert songs[..lo] + songs[lo..hi] == songs[..hi];
  }

  /** All `ceil(|songs| / 90)` slices are the whole of `songs`. */
  lemma PlacedAll(songs: seq<string>)
    ensures Placed(songs, CeilDiv(|songs|, AddLimit)) == songs
  {
  }

  /** The first rejection is at `i` when every slice before `i` is accepted and `i` is not. */
  lemma FirstRejectedAt(accepted: nat -> bool, k: nat, i: nat)
    requires i < k && !accepted(i) && forall j :: 0 <= j < i ==> accepted(j)
    ensures FirstRejected(accepted, k) == i
  {
  }

  /** One request of `create_playlist`: slice `i`, inserted at `position = i * 90` after the slices before it. */
  method InsertSlice(api: RemoteApi, playlistId: string, songs: seq<string>, i: nat, accepted: bool)
    returns (ok: bool)
    requires api.Valid() && playlistId in api.tracks && api.tracks[playlistId] == Placed(songs, i)
    requires i < CeilDiv(|songs|, AddLimit)
    modifies api`tracks, api`log
    ensures api.Valid() && ok == accepted
    ensures api.tracks == if accepted then old(api.tracks)[playlistId := Placed(songs, i + 1)] else old(api.tracks)
    ensures api.log == old(api.log) + [AddCall(playlistId, songs, i, true)]
  {
    PositionedStep(songs, i);
    var lo := i * AddLimit;
    ChunkIsSlice(songs, i, AddLimit);
    var uris := songs[lo..Min(lo + AddLimit, |songs|)];
    ok := api.PostTracks(playlistId, uris, Some(lo), accepted);
  }

  /**
   * The slice loop of `create_playlist` on the new, empty playlist: post slice
   * `i` at `position = i * 90` and stop at the first slice the server rejects.
   */
  method AddSlicesAtPositions(api: RemoteApi, playlistId: string, songs: seq<string>, accepted: nat -> bool)
    returns (ok: bool)
    requires api.Valid() && playlistId in api.tracks && api.tracks[playlistId] == []
    modifies api`tracks, api`log
    ensures api.Valid()
    ensures ok <==> forall i :: 0 <= i < CeilDiv(|songs|, AddLimit) ==> accepted(i)
    ensures api.tracks == old(api.tracks)[playlistId :=
      Placed(songs, FirstRejected(accepted, CeilDiv(|songs|, AddLimit)))]
    ensures api.log == old(api.log) +
      AddCalls(playlistId, songs, Min(FirstRejected(accepted, CeilDiv(|songs|, AddLimit)) + 1, CeilDiv(|songs|, AddLimit)), true)
  {
    var k := CeilDiv(|songs|, AddLimit);
    for i := 0 to k
      invariant api.Valid()
      invariant forall j :: 0 <= j < i ==> accepted(j)
      invariant api.tracks == old(api.tracks)[playlistId := Placed(songs, i)]
      invariant api.log == old(api.log) + AddCalls(playlistId, songs, i, true)
    {
      AddCallsStep(playlistId, songs, i, true);
      var status := InsertSlice(api, playlistId, songs, i, accepted(i));
      if !status {
        FirstRejectedAt(accepted, k, i);
        return false;
      }
      assert accepted(i);
    }
    return true;
  }

  /** The requests of `create_playlist(lan, uris)`: the creation, then with a usable id the posts up to the first rejection. */
  function CreateCalls(lan: string, uris: seq<string>, created: Option<string>, accepted: nat -> bool): (calls: seq<Call>)
    ensures |calls| > 0 && calls[0] == NewPlaylist(lan, false)
    ensures !Usable(created) ==> calls == [NewPlaylist(lan, false)]
  {
    var k := CeilDiv(|uris|, AddLimit);
    [NewPlaylist(lan, false)] +
      (if Usable(created) then AddCalls(created.value, uris, Min(FirstRejected(accepted, k) + 1, k), true) else [])
  }

  /**
   * `create_playlist`: create a private playlist named `name`; without a
   * usable id, return `false` having added nothing. Otherwise post slice `i`
   * at `position = i * 90`, stop with `false` at the first slice the server
   * rejects, and return `true` when every slice went in.
   */
  method CreatePlaylist(api: RemoteApi, name: string, songs: seq<string>, created: Option<string>, accepted: nat -> bool)
    returns (ok: bool)
    requires api.Valid()
    requires created.Some? ==> created.value !in api.tracks
    modifies api
    ensures api.Valid()
    ensures ok <==> Usable(created) && forall i :: 0 <= i < CeilDiv(|songs|, AddLimit) ==> accepted(i)
    ensures api.names == if created.Some? then old(api.names)[created.value := name] else old(api.names)
    ensures !Usable(created) ==>
      api.tracks == (if created.Some? then old(api.tracks)[created.value := []] else old(api.tracks)) &&
      api.log == old(api.log) + [NewPlaylist(name, false)]
    ensures Usable(created) ==>
      api.tracks == old(api.tracks)[created.value := Placed(songs, FirstRejected(accepted, CeilDiv(|songs|, AddLimit)))] &&
      api.log == old(api.log) + [NewPlaylist(name, false)] +
        AddCalls(created.value, songs, Min(FirstRejected(accepted, CeilDiv(|songs|, AddLimit)) + 1, CeilDiv(|songs|, AddLimit)), true)
    ensures ok ==> api.tracks == old(api.tracks)[created.value := songs]
    ensures api.log == old(api.log) + CreateCalls(name, songs, created, accepted)
  {
    var id := api.PostPlaylist(name, false, created);
    if id.None? || id.value == "" {
      return false;
    }
    ok := AddSlicesAtPositions(api, id.value, songs, accepted);
    if ok {
      PlacedAll(songs);
    }
  }
}
