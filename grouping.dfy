/**
 * The bookkeeping of `process`: the label-to-URIs grouping of the resolved
 * songs and the name-to-id index of the existing playlists.
 */
module Grouping {
  import opened Wrappers
  import opened Records

  /** A resolved song as the grouping sees it: its label and its URI. */
  datatype Entry = Entry(lan: string, uri: string)

  /** The distinct labels of the songs. */
  function LabelSet(es: seq<Entry>): set<string>
  {
    set i | 0 <= i < |es| :: es[i].lan
  }

  /** The URIs of all songs, in order. */
  function Uris(es: seq<Entry>): seq<string>
  {
    if es == [] then [] else Uris(es[..|es| - 1]) + [es[|es| - 1].uri]
  }

  /** The URIs of the songs labelled `lan`, in song order. */
  function UrisOf(es: seq<Entry>, lan: string): seq<string>
  {
    if es == [] then []
    else UrisOf(es[..|es| - 1], lan) + (if es[|es| - 1].lan == lan then [es[|es| - 1].uri] else [])
  }

  /** The URIs of the songs whose label is in `labels`, in song order. */
  function UrisIn(es: seq<Entry>, labels: set<string>): seq<string>
  {
    if es == [] then []
    else UrisIn(es[..|es| - 1], labels) + (if es[|es| - 1].lan in labels then [es[|es| - 1].uri] else [])
  }

  /** The grouping: every distinct label, mapped to the URIs of its songs in song order. */
  function Group(es: seq<Entry>): map<string, seq<string>>
  {
    map lan | lan in LabelSet(es) :: UrisOf(es, lan)
  }

  /** A label occurs among the songs exactly when its group is non-empty: no group is empty. */
  lemma {:induction false} GroupsNonEmpty(es: seq<Entry>, lan: string)
    ensures lan in LabelSet(es) <==> UrisOf(es, lan) != []
  {
    if es != [] {
      var init := es[..|es| - 1];
      GroupsNonEmpty(init, lan);
      assert LabelSet(es) == LabelSet(init) + {es[|es| - 1].lan} by {
        forall l | l in LabelSet(es) ensures l in LabelSet(init) + {es[|es| - 1].lan} {
          var i :| 0 <= i < |es| && es[i].lan == l;
          if i < |es| - 1 { assert init[i] == es[i]; }
        }
        forall l | l in LabelSet(init) ensures l in LabelSet(es) {
          var i :| 0 <= i < |init| && init[i].lan == l;
          assert es[i] == init[i];
        }
      }
    }
  }

  /** Adding one more label to the filter adds exactly that label's URIs. */
  lemma {:induction false} UrisInAddLabel(es: seq<Entry>, labels: set<string>, lan: string)
    requires lan !in labels
    ensures multiset(UrisIn(es, labels + {lan})) == multiset(UrisIn(es, labels)) + multiset(UrisOf(es, lan))
  {
    if es != [] {
      UrisInAddLabel(es[..|es| - 1], labels, lan);
    }
  }

  /** Filtering on a superset of all labels keeps every URI. */
  lemma {:induction false} UrisInAll(es: seq<Entry>, labels: set<string>)
    requires LabelSet(es) <= labels
    ensures UrisIn(es, labels) == Uris(es)
  {
    if es != [] {
      var init := es[..|es| - 1];
      assert LabelSet(init) <= LabelSet(es) by {
        forall l | l in LabelSet(init) ensures l in LabelSet(es) {
          var i :| 0 <= i < |init| && init[i].lan == l;
          assert es[i] == init[i];
        }
      }
      assert es[|es| - 1].lan in LabelSet(es);
      UrisInAll(init, labels);
    }
  }

  /** The groups of the labels in `order`, concatenated in that order. */
  function Flatten(groups: map<string, seq<string>>, order: seq<string>): seq<string>
  {
    if order == [] then []
    else (if order[0] in groups then groups[order[0]] else []) + Flatten(groups, order[1..])
  }

  /** The elements of a sequence, as a set. */
  function ToSet(s: seq<string>): (r: set<string>)
    ensures forall x :: x in r <==> x in s
  {
    if s == [] then {} else {s[0]} + ToSet(s[1..])
  }

  /** The sequence has no repeated element. */
  predicate NoDuplicates<T(==)>(s: seq<T>)
  {
    forall i, j :: 0 <= i < j < |s| ==> s[i] != s[j]
  }

  /** Flattening the groups of distinct labels gives the URIs of the songs carrying those labels. */
  lemma {:induction false} FlattenLabels(es: seq<Entry>, order: seq<string>)
    requires NoDuplicates(order)
    requires forall i :: 0 <= i < |order| ==> order[i] in LabelSet(es)
    ensures multiset(Flatten(Group(es), order)) == multiset(UrisIn(es, ToSet(order)))
  {
    if order == [] {
      UrisInEmpty(es);
    } else {
      var rest := order[1..];
      assert NoDuplicates(rest) by {
        forall i, j | 0 <= i < j < |rest| ensures rest[i] != rest[j] {
          assert rest[i] == order[i + 1] && rest[j] == order[j + 1];
        }
      }
      assert forall i :: 0 <= i < |rest| ==> rest[i] == order[i + 1];
      FlattenLabels(es, rest);
      assert order[0] !in ToSet(rest);
      assert ToSet(order) == ToSet(rest) + {order[0]};
      UrisInAddLabel(es, ToSet(rest), order[0]);
      var g := Group(es);
      assert order[0] in g && g[order[0]] == UrisOf(es, order[0]);
      assert Flatten(g, order) == UrisOf(es, order[0]) + Flatten(g, rest);
    }
  }

  lemma {:induction false} UrisInEmpty(es: seq<Entry>)
    ensures UrisIn(es, {}) == []
  {
    if es != [] {
      UrisInEmpty(es[..|es| - 1]);
    }
  }

  /**
   * Whatever order the labels are visited in, flattening the groups gives a
   * permutation of all the songs' URIs: nothing is lost or duplicated.
   */
  lemma FlattenIsPermutation(es: seq<Entry>, order: seq<string>)
    requires NoDuplicates(order)
    requires forall lan :: lan in LabelSet(es) <==> lan in order
    ensures multiset(Flatten(Group(es), order)) == multiset(Uris(es))
  {
    assert forall i :: 0 <= i < |order| ==> order[i] in LabelSet(es);
    FlattenLabels(es, order);
    UrisInAll(es, ToSet(order));
  }

  /** The label and URI of each resolved song. */
  function Entries(songs: seq<Song>): (es: seq<Entry>)
    reads set s | s in songs
    requires forall i :: 0 <= i < |songs| ==> songs[i].lan.Some?
    ensures |es| == |songs|
    ensures forall i :: 0 <= i < |songs| ==> es[i] == Entry(songs[i].lan.value, songs[i].uri)
  {
    if songs == [] then []
    else Entries(songs[..|songs| - 1]) + [Entry(songs[|songs| - 1].lan.value, songs[|songs| - 1].uri)]
  }

  /** `groups` holds, for every label of `es`, the URIs of the first `i` songs carrying it. */
  ghost predicate GroupedUpTo(groups: map<string, seq<string>>, es: seq<Entry>, i: nat)
    requires i <= |es|
  {
    groups.Keys == LabelSet(es) && forall lan :: lan in groups ==> groups[lan] == UrisOf(es[..i], lan)
  }

  /** Appending song `i`'s URI to its label's list accounts for the first `i + 1` songs. */
  lemma GroupStep(groups: map<string, seq<string>>, es: seq<Entry>, i: nat)
    requires i < |es| && GroupedUpTo(groups, es, i)
    ensures es[i].lan in groups
    ensures GroupedUpTo(groups[es[i].lan := groups[es[i].lan] + [es[i].uri]], es, i + 1)
  {
    assert es[i].lan in LabelSet(es);
    assert es[..i + 1][..i] == es[..i];
  }

  /** One empty list per label accounts for no songs; all songs accounted for is the grouping. */
  lemma GroupEnds(groups: map<string, seq<string>>, es: seq<Entry>)
    ensures groups == (map lan | lan in LabelSet(es) :: []) ==> GroupedUpTo(groups, es, 0)
    ensures GroupedUpTo(groups, es, |es|) ==> groups == Group(es)
  {
    assert es[..0] == [];
    assert es[..|es|] == es;
  }

  /** The labels the grouping loop collects are the labels of the entries. */
  lemma EntryLabels(songs: seq<Song>)
    requires forall i :: 0 <= i < |songs| ==> songs[i].lan.Some?
    ensures (set i | 0 <= i < |songs| :: songs[i].lan.value) == LabelSet(Entries(songs))
  {
    var es := Entries(songs);
    assert forall i :: 0 <= i < |songs| ==> es[i].lan == songs[i].lan.value;
  }

  /**
   * The grouping loop of `process`: one empty list per distinct label, then
   * each song's URI appended to its label's list, in song order.
   */
  method GroupByLabel(songs: seq<Song>) returns (groups: map<string, seq<string>>)
    requires forall i :: 0 <= i < |songs| ==> songs[i].lan.Some?
    ensures groups == Group(Entries(songs))
  {
    ghost var es := Entries(songs);
    var labels := set i | 0 <= i < |songs| :: songs[i].lan.value;
    EntryLabels(songs);
    groups := map lan | lan in labels :: [];
    GroupEnds(groups, es);
    for i := 0 to |songs|
      invariant GroupedUpTo(groups, es, i)
    {
      var lan := songs[i].lan.value;
      assert es[i] == Entry(lan, songs[i].uri);
      GroupStep(groups, es, i);
      groups := groups[lan := groups[lan] + [songs[i].uri]];
    }
    GroupEnds(groups, es);
  }

  /**
   * The `playlist_names` comprehension: each listed name mapped to an id; a
   * later playlist with the same name overrides an earlier one.
   */
  function NameIndex(playlists: seq<Playlist>): (index: map<string, string>)
    ensures forall i :: 0 <= i < |playlists| ==> playlists[i].name in index
    ensures forall name :: name in index ==> exists i :: 0 <= i < |playlists| && playlists[i].name == name
  {
    if playlists == [] then map[]
    else
      var init, last := playlists[..|playlists| - 1], playlists[|playlists| - 1];
      assert forall i :: 0 <= i < |init| ==> init[i] == playlists[i];
      NameIndex(init)[last.name := last.playlistId]
  }

  /** A playlist no later playlist shares a name with is the one its name maps to. */
  lemma {:induction false} LastNameWins(playlists: seq<Playlist>, i: nat)
    requires i < |playlists|
    requires forall j :: i < j < |playlists| ==> playlists[j].name != playlists[i].name
    ensures NameIndex(playlists)[playlists[i].name] == playlists[i].playlistId
  {
    if i < |playlists| - 1 {
      var init := playlists[..|playlists| - 1];
      assert forall j :: 0 <= j < |init| ==> init[j] == playlists[j];
      LastNameWins(init, i);
    }
  }

  /** Every key of the index is the name of a listed playlist and carries the id of the last one so named. */
  lemma IndexFromLastPlaylist(playlists: seq<Playlist>, name: string)
    requires name in NameIndex(playlists)
    ensures exists i :: 0 <= i < |playlists| && playlists[i].name == name &&
                        NameIndex(playlists)[name] == playlists[i].playlistId &&
                        (forall j :: i < j < |playlists| ==> playlists[j].name != name)
  {
    var i :| 0 <= i < |playlists| && playlists[i].name == name;
    while exists j :: i < j < |playlists| && playlists[j].name == name
      invariant 0 <= i < |playlists| && playlists[i].name == name
      decreases |playlists| - i
    {
      var j :| i < j < |playlists| && playlists[j].name == name;
      i := j;
    }
    LastNameWins(playlists, i);
  }
}
