# Spotify language sorter — verified model of the synchronisation core

`spotify.py` reads a user's saved tracks and labels each one with a language
taken from a lyrics-search reply. It groups the track URIs by label and
keeps one private playlist per label. An existing playlist with the label's
name is emptied and refilled. For any other label a new playlist is created.

This project models the sequential core of that run in Dafny and proves what
it does:

- **Pagination** (`pagination.dfy`). `get_resource` requests
  `round(total / 50) or 1` pages at offset `page * 50` with limit 50. Python's
  `round` rounds half to even, and the model writes that out exactly in
  integers. The model proves how many items this misses. With 120 or 125
  items only 100 come back.
- **Slicing** (`chunking.dfy`). `ceil(n / c)` is written in integers, and
  `s[i*c : i*c+c]` is a Python slice that clamps both ends. Lemmas show that
  the slices are non-empty, hold at most `c` items and reassemble the list.
- **Records** (`records.dfy`). `Song` is a class whose `lan` field resolution
  overwrites in place. `Playlist` is a value.
- **Label resolution** (`labels.dfy`). The label is the first hit's
  `language`. It falls back to `"unidentified"` on `None`, on a missing key
  and on an empty hit list.
- **Remote playlists** (`api.dfy`). `RemoteApi` is a class holding:
  - each playlist's name, by id;
  - each playlist's track URIs, by id, in order;
  - the log of every request issued.
- **Playlist writers** (`handler.dfy`). `empty_playlist`, `update_playlist`
  and `create_playlist` are loops that issue requests against a `RemoteApi`.
- **Grouping and reconcile** (`grouping.dfy`, `sync.dfy`). This covers:
  - the label → URIs dictionary and the name → id dictionary;
  - the per-label choice between "empty and refill" and "create";
  - `process` from fetching to the end of the reconcile loop.

The server's answers are inputs to the model:

- `fetch(q)` is the page returned for query `q`, or `None` when that
  request raised.
- `replies(i)` is the search reply for track `i`.
- `created` / `created(lan)` is the id returned by playlist creation, if any.
- `accepted(i)` / `accepted(lan)(i)` says whether the server answered slice
  `i` with success.

Three behaviours of the code worth noting:

- Only `None` is replaced by `"unidentified"`. A first hit whose language
  is the empty string keeps `""` as its label (`EmptyLanguageKept`).
- Lookup errors other than `KeyError` and `IndexError` are not caught, so
  they do not yield the fallback label.
- `empty_playlist` evaluates `range(ceil(total / 50))` once, before its
  first round. It does not re-read the total on each round.

## Model

| member | source | states |
|---|---|---|
| Chunking.CeilDiv | spotify.py:260 | `math.ceil(n / c)` in integers: the least `k` with `k * c >= n`; zero exactly for `n = 0` |
| Chunking.Slice | spotify.py:264 | Python slicing `s[lo:hi]`: both bounds clamped to the length, empty when they cross |
| Chunking.ChunksAt | spotify.py:260-264 | request `i` of the slicing carries exactly slice `s[i*c : i*c+c]` |
| Chunking.PrefixThenChunk | spotify.py:264 | the first `i` slices followed by slice `i` are the first `i + 1` slices |
| Chunking.ChunksPrefix | spotify.py:260-264 | the first `m` slices concatenated are the prefix of the first `m * c` items of the list (all of it when shorter) |
| Chunking.ChunksReassemble | spotify.py:260-265 | the `ceil(n / c)` slices concatenated in order are exactly the list |
| Chunking.ChunkSize | spotify.py:260-264 | every one of the `ceil(n / c)` slices is non-empty and has at most `c` items; all but the last have exactly `c`, the last has the remainder |
| Chunking.KeptAll | spotify.py:260-265 | when every slice is accepted, what reaches the playlist is all the slices concatenated |
| Chunking.ChunkExample | spotify.py:260-264 | 215 URIs go out as three requests of 90, 90 and 35 |
| Pagination.RoundDiv | spotify.py:151 | `round(t / 50)`: the result is within half a page of `t / 50`, and ties go to the even quotient |
| Pagination.RoundDivUnique | spotify.py:151 | any integer meeting that description equals `RoundDiv`, so the contract is exactly round-half-to-even |
| Pagination.PageCount | spotify.py:151 | `round(total / 50) or 1`: at least one page, and the rounded value when it is non-zero |
| Pagination.PageCountExamples | spotify.py:151 | 120 and 125 give 2 pages, 175 gives 4, 75 gives 2, 10 and 0 give 1 |
| Pagination.PagesFallShort | spotify.py:151-159 | the pages cover fewer than `total` items exactly when the remainder is below 25, or 25 beside an even quotient, with `total > 25` and not a multiple of 50 |
| Pagination.ShortfallAtMost25 | spotify.py:151-159 | the pages never miss more than 25 items |
| Pagination.GetResource | spotify.py:145-176 | issues `PageCount(total)` page requests, page `k` with `offset = k*50, limit = 50`; returns the items of the answered pages in page order, and a raised page adds nothing while later pages still run |
| Pagination.GatheredPrefix | spotify.py:151-161 | against a server that answers with its slices, the first `k` pages yield the first `50 * k` items |
| Pagination.FetchFromFaithfulServer | spotify.py:149-176 | against such a server, `get_resource` yields the first `50 * PageCount(total)` items, so all of them exactly when the pages do not fall short |
| Records.Song.constructor | spotify.py:29-33 | a new song has the given name, artist and URI and no label |
| Records.MakePlaylist | spotify.py:42-45 | a playlist keeps its name and id; a missing or empty song list becomes `[]` |
| Records.GetSongs | spotify.py:178-187 | one fresh, distinct, unlabelled `Song` per saved-track item, in order, with that item's name, artist and URI |
| Labels.LabelOf | spotify.py:206-215 | the label is the first hit's non-null language; otherwise it is `"unidentified"`, and then no hit language exists |
| Labels.NoHitsIsUnidentified | spotify.py:208-215 | an empty hit list (the `IndexError` case) gives `"unidentified"` |
| Labels.EmptyLanguageKept | spotify.py:208-213 | an empty-string language is kept as the label; only `None` is replaced |
| Labels.ResolveLabels | spotify.py:206-215 | after the loop every track's label is set (non-null) and equals `LabelOf` of its own reply |
| Api.Without | spotify.py:241-256 | a removal request keeps exactly the URIs not listed and never lengthens the playlist |
| Api.WithoutShrinks | spotify.py:241-256 | removing a page of `k` leading URIs shortens the playlist by at least `k` |
| Api.RemoteApi.TrackTotal | spotify.py:234-236 | the parameterless listing reports the playlist's current length and is logged |
| Api.RemoteApi.FirstTracks | spotify.py:248-252 | the `limit` listing returns the URIs of the first `limit` items and is logged |
| Api.RemoteApi.DeleteTracks | spotify.py:241-256 | deletion removes every occurrence of the listed URIs from that playlist only, and is logged |
| Api.RemoteApi.PostTracks | spotify.py:261-265 | an accepted addition inserts the URIs at `position` (appends without one); a rejected one changes no playlist; both are logged |
| Api.RemoteApi.PostPlaylist | spotify.py:269-273 | creation logs the request; a returned id names a new, empty playlist with that name |
| Handler.DrainStep | spotify.py:241-256 | one removal round shortens the playlist by at least `min(50, length)` |
| Handler.DrainCallsLength | spotify.py:231-256 | each removal round issues exactly two requests |
| Handler.DrainCallsStep | spotify.py:241-256 | round `n + 1` lists the first page of what `n` rounds left and deletes exactly its URIs |
| Handler.DrainedShrinks | spotify.py:231-256 | after `n` rounds at most `length - 50 n` items remain |
| Handler.DrainedEmpty | spotify.py:231-256 | `ceil(total / 50)` rounds leave the playlist empty |
| Handler.DrainRound | spotify.py:241-256 | one round reads the first page of up to 50 and deletes exactly those URIs |
| Handler.EmptyPlaylist | spotify.py:228-256 | reads the total once, runs `ceil(total / 50)` rounds and leaves that playlist empty and every other one unchanged; the request log is the initial listing followed by a list/delete pair per round |
| Handler.AddCalls | spotify.py:260-265 | `k` slices give exactly `k` requests |
| Handler.AddCallsStep | spotify.py:260-265 | one more slice appends exactly its own request |
| Handler.AddCallsAt | spotify.py:260-265 | request `i` carries slice `i`, positioned at `i * 90` when positioned |
| Handler.AddCallsCarrySongs | spotify.py:260-265 | the `ceil(n / 90)` request bodies each carry between 1 and 90 URIs and concatenate to the whole list |
| Handler.AppendSlice | spotify.py:261-265 | one un-positioned request adds slice `i` at the end when accepted |
| Handler.KeptStep | spotify.py:260-265 | one more slice adds its URIs when accepted and nothing when rejected |
| Handler.UpdatePlaylist | spotify.py:258-265 | issues `ceil(n / 90)` append requests for the slices in order and ignores the verdicts; the playlist gains the accepted slices at its end; an empty list issues none |
| Handler.UpdateAppendsAll | spotify.py:258-265 | when every slice is accepted the playlist gains exactly `songs` |
| Handler.FirstRejectedFrom | spotify.py:281-295 | the first rejected slice at or after `i`: every earlier one is accepted, and it is rejected unless it is the end |
| Handler.FirstRejected | spotify.py:281-295 | the first rejected slice: every earlier one is accepted, and it is rejected unless it is the end |
| Handler.PositionedStep | spotify.py:281-282 | `i * 90` is the current length, and inserting slice `i` there gives the first `i + 1` slices |
| Handler.FirstRejectedAt | spotify.py:283-295 | the loop stops exactly at the first slice the server rejects |
| Handler.InsertSlice | spotify.py:282-291 | one positioned request inserts slice `i` at `i * 90` when accepted |
| Handler.AddSlicesAtPositions | spotify.py:281-296 | posts slice `i` at `position = i * 90` in order; returns `true` iff every slice is accepted; stops right after the first rejection; the playlist holds the slices before it |
| Handler.CreateCalls | spotify.py:267-296 | the requests of `create_playlist` start with the creation request; without a usable id they are that request alone |
| Handler.CreatePlaylist | spotify.py:267-296 | creates a private playlist named `name`. Without a usable id, returns `false` and adds nothing. Otherwise its slice requests are those of the positioned loop up to the first rejection. Returns `true` only when every slice went in, and then the new playlist holds exactly `songs`. Its whole request log is `CreateCalls` |
| Grouping.GroupsNonEmpty | spotify.py:358-360 | a label is a key of the grouping iff some song carries it, so no group is empty |
| Grouping.FlattenLabels | spotify.py:358-360 | concatenating the groups of distinct labels yields, up to order, the URIs of the songs with those labels |
| Grouping.FlattenIsPermutation | spotify.py:358-360 | in any key order, the groups flattened are a permutation of all song URIs: none lost, none duplicated |
| Grouping.GroupStep | spotify.py:359-360 | appending a song's URI to its label's list accounts for one more song |
| Grouping.EntryLabels | spotify.py:358 | the keys set up are the distinct labels of the songs |
| Grouping.GroupByLabel | spotify.py:358-360 | the dictionary built has exactly the distinct labels as keys, each mapped to its songs' URIs in song order |
| Grouping.NameIndex | spotify.py:365-367 | every listed name is a key, and every key is a listed name |
| Grouping.LastNameWins | spotify.py:365-367 | a name maps to the id of the last playlist listed under it, so a later duplicate overrides an earlier one |
| Grouping.IndexFromLastPlaylist | spotify.py:365-367 | each key's id belongs to the last listed playlist of that name |
| Sync.Enumerate | spotify.py:370 | the loop visits each label exactly once, in some order |
| Sync.AllAcceptedAllThere | spotify.py:370-378 | with every slice accepted, both paths leave the label's playlist holding exactly its URIs in order |
| Sync.ReconciledInitially | spotify.py:370-378 | before the loop no label is reconciled and nothing has changed |
| Sync.ReconciledStep | spotify.py:370-378 | visiting one more label keeps what earlier labels reached and only touches that label's playlist |
| Sync.KeysStep | spotify.py:370-378 | only the create path adds a playlist id |
| Sync.RefilledStep | spotify.py:371-375 | refilled playlists of earlier labels stay as they were |
| Sync.PopulatedStep | spotify.py:376-378 | created playlists of earlier labels stay as they were |
| Sync.UntouchedStep | spotify.py:370-378 | playlists no label names are left unchanged |
| Sync.ReconciledTargets | spotify.py:370-378 | during the loop the indexed ids still exist and unvisited labels' new ids are still free |
| Sync.RefillCalls | spotify.py:228-265 | the requests of emptying then refilling a playlist: the total listing first, two per removal round, one per slice |
| Sync.Refill | spotify.py:371-375 | the indexed playlist ends with the accepted slices of the label's URIs, nothing else changes, and the log gains exactly `RefillCalls` |
| Sync.ReconcileOne | spotify.py:371-378 | exactly one path per label. With an indexed name, that id is emptied and refilled and the log gains its `RefillCalls`. Otherwise a playlist named after the label is created and the log gains its `CreateCalls`, starting with the creation request |
| Sync.RunCallsStep | spotify.py:370-378 | visiting one more label appends that label's requests to the log of the labels before it |
| Sync.StepCallsAtVisit | spotify.py:370-375 | when a label is visited, its indexed playlist still holds what it held at the start, so its requests are those computed from the initial playlists |
| Sync.NamesStep | spotify.py:370-378 | one visit keeps the names of the playlists that existed at the start |
| Sync.VisitLogged | spotify.py:370-378 | after visiting `order[j]` the log holds the requests of `order[..j + 1]`, in order |
| Sync.ProgressStep | spotify.py:370-378 | one visit extends the loop's progress by that label: reconciled state and log both |
| Sync.Visit | spotify.py:371-378 | one loop iteration takes the loop's progress from `order[..j]` to `order[..j + 1]` |
| Sync.Reconcile | spotify.py:370-378 | afterwards (1) each indexed label's playlist holds its accepted slices; (2) each other label with a usable id has a new playlist named after it holding the slices before the first rejection; (3) every other playlist that existed keeps its tracks, and every playlist that existed keeps its name; (4) the ids are the old ones plus the created ones; (5) the request log is each label's requests, in the visiting order |
| Sync.ReconcileAll | spotify.py:370-378 | the loop over the dictionary's labels, in whatever order it yields them, reaches the reconciled state, and the log is each label's requests once in that order |
| Sync.PlaylistIndex | spotify.py:362-367 | fetches the playlists and indexes them by name; the indexed ids exist and differ from every id creation will give |
| Sync.GatheredAsStored | spotify.py:221-226 | a listing gathered from a server that reports playlists as stored lists only existing playlists under their names |
| Sync.IndexAsStored | spotify.py:363-367 | such a listing's name index maps each name to an existing playlist of that name, so distinct names have distinct ids |
| Sync.Labelled | spotify.py:206-215 | each saved track paired with its reply's label and its URI, in order |
| Sync.LabelledGroups | spotify.py:353-360 | fetching, building, labelling and grouping the saved tracks yields the grouping of the tracks labelled by their replies |
| Sync.Process | spotify.py:353-378 | the whole run leaves the playlists reconciled against the grouping of the fetched, labelled tracks and the name index of the fetched playlists, and its reconcile requests are each label's requests once, in some order |

## Left out

- `authorize` and `get_user_id` are left out. They are a token exchange and a profile request, which is I/O only.
- `make_call` is left out and the remote answers are parameters instead, as described above. Its two bugs are not modelled:
  - `response` is read unbound when the request raises.
  - `create_playlist` reads `.status_code` on the decoded JSON dictionary. The model takes a per-slice success flag instead.
- The first `total` request of `get_resource` is not issued in the model. `total` is a parameter.
- The reply-per-page oracle is not tied to `total`. `GatheredPrefix` and `FetchFromFaithfulServer` state the consistent case.
- The concurrent search fan-out through a pool of three workers is left out. Replies are given aligned with the tracks by position.
- Exceptions other than `KeyError` and `IndexError` are not caught by the source, so they are not modelled as a fallback label. These include a failed search request, or the first `total` request of `get_resource` or `empty_playlist` raising.
- JSON field extraction is left out. A saved-track item is already the record of the fields `get_songs` reads, and a listed playlist is already a `Playlist` value.
- The floating-point `round` and `math.ceil` are replaced by exact integer formulas. These agree for every realistic `total`.
- The Flask routes, templates, global `code`, background thread, environment variables, logger and the `__str__` methods of `Song` and `Playlist` are left out. The logged messages are not modelled.
- The remote's semantics are assumptions of the model:
  - deletion removes every occurrence of each listed URI;
  - an addition with `position` inserts there;
  - an id returned by creation is new and belongs to that label alone;
  - the playlist listing reports playlists as they exist.
- Sync.Process: the fetching stages (`get_resource` for the saved tracks and for the playlists, and the searches) are not logged, so the log it states covers only the reconcile loop.
- Records.MakePlaylist: it models `Playlist.__init__` on its own. The listing reaches the model as `Playlist` values already, so no other member calls it.
- Handler.CreatePlaylist: an id of `""` is treated as missing, because `if not playlist_id` rejects it. The empty playlist such a request may have created is kept in the remote state.
