/**
 * The body of `process`: fetch and label the saved tracks, group their URIs
 * by label, index the existing playlists by name, then for each label either
 * empty and refill the playlist of that name or create a new one.
 */
module Sync {
  import opened Wrappers
  import opened Chunking
  import opened Pagination
  import opened Records
  import opened Labels
  import opened Api
  import opened Handler
  import opened Grouping

  /**
   * The keys of a dictionary in its iteration order. The order of a Python
   * `set` is not specified, so any enumeration may come out.
   */
  method Enumerate(labels: set<string>) returns (order: seq<string>)
    ensures NoDuplicates(order)
    ensures forall lan :: lan in labels <==> lan in order
  {
    order := [];
    var rest := labels;
    while rest != {}
      invariant NoDuplicates(order)
      invariant rest <= labels
      invariant forall lan :: lan in labels <==> lan in order || lan in rest
      invariant forall lan :: lan in rest ==> lan !in order
      decreases rest
    {
      var lan :| lan in rest;
      order := order + [lan];
      rest := rest - {lan};
    }
  }

  /** An existing playlist after `empty_playlist` then `update_playlist`: the accepted slices of `uris`. */
  function Refilled(uris: seq<string>, accepted: nat -> bool): seq<string>
  {
    Kept(uris, AddLimit, CeilDiv(|uris|, AddLimit), accepted)
  }

  /** A created playlist after `create_playlist`: the slices up to the first rejected one. */
  function Populated(uris: seq<string>, accepted: nat -> bool): seq<string>
  {
    Placed(uris, FirstRejected(accepted, CeilDiv(|uris|, AddLimit)))
  }

  /** A label's playlist ends up holding all its URIs, in order, when the server accepts every slice. */
  lemma AllAcceptedAllThere(uris: seq<string>, accepted: nat -> bool)
    requires forall i :: 0 <= i < CeilDiv(|uris|, AddLimit) ==> accepted(i)
    ensures Refilled(uris, accepted) == uris
    ensures Populated(uris, accepted) == uris
  {
    UpdateAppendsAll(uris, accepted);
    assert FirstRejected(accepted, CeilDiv(|uris|, AddLimit)) == CeilDiv(|uris|, AddLimit);
    PlacedAll(uris);
  }

  /** The ids the created playlists got, for the labels `done` that took the create path. */
  function CreatedIds(done: set<string>, index: map<string, string>, created: string -> Option<string>): set<string>
  {
    set lan | lan in done && lan !in index && created(lan).Some? :: created(lan).value
  }

  /**
   * What the server promises about ids: the index only names existing
   * playlists, distinct names have distinct ids, and every created playlist
   * gets an id that is new and belongs to no other label.
   */
  ghost predicate FreshTargets(tracks0: map<string, seq<string>>, index: map<string, string>,
                               created: string -> Option<string>)
  {
    (forall name :: name in index ==> index[name] in tracks0) &&
    (forall a, b :: a in index && b in index && index[a] == index[b] ==> a == b) &&
    (forall lan :: created(lan).Some? ==> created(lan).value !in tracks0) &&
    (forall a, b :: created(a).Some? && created(a) == created(b) ==> a == b)
  }

  /**
   * The remote state once the labels in `done` are reconciled, starting from
   * the playlists `tracks0` named `names0`.
   */
  ghost predicate Reconciled(tracks0: map<string, seq<string>>, names0: map<string, string>,
                             tracks: map<string, seq<string>>,
                             names: map<string, string>, done: set<string>,
                             groups: map<string, seq<string>>, index: map<string, string>,
                             created: string -> Option<string>, accepted: string -> nat -> bool)
  {
    done <= groups.Keys &&
    (forall lan :: lan in done && lan in index ==>
      index[lan] in tracks && tracks[index[lan]] == Refilled(groups[lan], accepted(lan))) &&
    (forall lan :: lan in done && lan !in index && Usable(created(lan)) ==>
      created(lan).value in tracks && created(lan).value in names && names[created(lan).value] == lan &&
      tracks[created(lan).value] == Populated(groups[lan], accepted(lan))) &&
    (forall id :: id in tracks0 && (forall lan :: lan in done && lan in index ==> index[lan] != id) ==>
      id in tracks && tracks[id] == tracks0[id]) &&
    (forall id :: id in names0 ==> id in names && names[id] == names0[id]) &&
    tracks.Keys == tracks0.Keys + CreatedIds(done, index, created)
  }

  /** The remote state after one label `lan` was reconciled from `before`. */
  ghost predicate StepEffect(before: map<string, seq<string>>, after: map<string, seq<string>>,
                             namesBefore: map<string, string>, namesAfter: map<string, string>,
                             lan: string, groups: map<string, seq<string>>, index: map<string, string>,
                             created: string -> Option<string>, accepted: string -> nat -> bool)
    requires lan in groups
  {
    if lan in index then
      after == before[index[lan] := Refilled(groups[lan], accepted(lan))] && namesAfter == namesBefore
    else if created(lan).Some? then
      after == before[created(lan).value := if Usable(created(lan)) then Populated(groups[lan], accepted(lan)) else []] &&
      namesAfter == namesBefore[created(lan).value := lan]
    else
      after == before && namesAfter == namesBefore
  }

  /** The requests of `empty_playlist` then `update_playlist` on the playlist `playlistId` holding `s`. */
  function RefillCalls(playlistId: string, s: seq<string>, uris: seq<string>): (calls: seq<Call>)
    ensures |calls| == 1 + 2 * CeilDiv(|s|, RemoveLimit) + CeilDiv(|uris|, AddLimit)
    ensures calls[0] == ListTracks(playlistId, None)
  {
    DrainCallsLength(playlistId, s, CeilDiv(|s|, RemoveLimit));
    [ListTracks(playlistId, None)] + DrainCalls(playlistId, s, CeilDiv(|s|, RemoveLimit)) +
      AddCalls(playlistId, uris, CeilDiv(|uris|, AddLimit), false)
  }

  /**
   * The requests reconciling label `lan` issues, the playlists being `tracks0`
   * when it is visited: the refill of the indexed playlist, or the creation.
   */
  function StepCalls(tracks0: map<string, seq<string>>, lan: string,
                     groups: map<string, seq<string>>, index: map<string, string>,
                     created: string -> Option<string>, accepted: string -> nat -> bool): seq<Call>
    requires lan in groups
    requires lan in index ==> index[lan] in tracks0
  {
    if lan in index then RefillCalls(index[lan], tracks0[index[lan]], groups[lan])
    else CreateCalls(lan, groups[lan], created(lan), accepted(lan))
  }

  /** The requests of reconciling the labels of `order`, one after the other, from the playlists `tracks0`. */
  function RunCalls(tracks0: map<string, seq<string>>, order: seq<string>,
                    groups: map<string, seq<string>>, index: map<string, string>,
                    created: string -> Option<string>, accepted: string -> nat -> bool): seq<Call>
    requires forall i :: 0 <= i < |order| ==> order[i] in groups
    requires forall name :: name in index ==> index[name] in tracks0
  {
    if order == [] then []
    else
      RunCalls(tracks0, order[..|order| - 1], groups, index, created, accepted) +
        StepCalls(tracks0, order[|order| - 1], groups, index, created, accepted)
  }

  /**
   * `log` is `log0` followed by the requests of reconciling every label of
   * `groups` exactly once, in some order.
   */
  ghost predicate ReconcileLog(log0: seq<Call>, log: seq<Call>, tracks0: map<string, seq<string>>,
                               groups: map<string, seq<string>>, index: map<string, string>,
                               created: string -> Option<string>, accepted: string -> nat -> bool)
  {
    (forall name :: name in index ==> index[name] in tracks0) &&
    exists order: seq<string> ::
      NoDuplicates(order) && (forall lan :: lan in groups <==> lan in order) &&
      log == log0 + RunCalls(tracks0, order, groups, index, created, accepted)
  }

  /** Reconciling one more label of `order` appends that label's requests. */
  lemma RunCallsStep(tracks0: map<string, seq<string>>, order: seq<string>, j: nat,
                     groups: map<string, seq<string>>, index: map<string, string>,
                     created: string -> Option<string>, accepted: string -> nat -> bool)
    requires j < |order|
    requires forall i :: 0 <= i < |order| ==> order[i] in groups
    requires forall name :: name in index ==> index[name] in tracks0
    ensures RunCalls(tracks0, order[..j + 1], groups, index, created, accepted) ==
      RunCalls(tracks0, order[..j], groups, index, created, accepted) + StepCalls(tracks0, order[j], groups, index, created, accepted)
  {
    assert order[..j + 1][..j] == order[..j];
  }

  /**
   * When label `lan` is visited, its indexed playlist still holds what it held
   * at the start, so it issues the requests it would have issued first.
   */
  lemma StepCallsAtVisit(tracks0: map<string, seq<string>>, names0: map<string, string>,
                         tracks: map<string, seq<string>>, names: map<string, string>,
                         done: set<string>, lan: string,
                         groups: map<string, seq<string>>, index: map<string, string>,
                         created: string -> Option<string>, accepted: string -> nat -> bool)
    requires FreshTargets(tracks0, index, created)
    requires Reconciled(tracks0, names0, tracks, names, done, groups, index, created, accepted)
    requires lan in groups && lan !in done
    ensures lan in index ==> index[lan] in tracks && tracks[index[lan]] == tracks0[index[lan]]
    ensures lan in index ==> index[lan] in tracks0
    ensures (lan in index ==> index[lan] in tracks) &&
      StepCalls(tracks, lan, groups, index, created, accepted) == StepCalls(tracks0, lan, groups, index, created, accepted)
  {
    if lan in index {
      forall l | l in done && l in index
        ensures index[l] != index[lan]
      {
        assert l != lan;
      }
    }
  }

  /** The labels of `order[..j + 1]` are those of `order[..j]` and `order[j]`. */
  lemma PrefixExtended(order: seq<string>, j: nat)
    requires j < |order|
    ensures forall lan :: lan in order[..j + 1] <==> lan in order[..j] || lan == order[j]
  {
    assert order[..j + 1] == order[..j] + [order[j]];
  }

  /** Appending the requests of one more step to a log that extends `log0`. */
  lemma LogAppended(log0: seq<Call>, logBefore: seq<Call>, log: seq<Call>, earlier: seq<Call>, step: seq<Call>)
    requires logBefore == log0 + earlier && log == logBefore + step
    ensures log == log0 + (earlier + step)
  {
  }

  /** Before any label is visited, nothing is reconciled and nothing has changed. */
  lemma ReconciledInitially(tracks0: map<string, seq<string>>, names: map<string, string>,
                            groups: map<string, seq<string>>, index: map<string, string>,
                            created: string -> Option<string>, accepted: string -> nat -> bool)
    ensures Reconciled(tracks0, names, tracks0, names, {}, groups, index, created, accepted)
  {
    assert CreatedIds({}, index, created) == {};
  }

  /** Reconciling one more label keeps what earlier labels reached and touches only that label's playlist. */
  lemma ReconciledStep(tracks0: map<string, seq<string>>, names0: map<string, string>, before: map<string, seq<string>>, after: map<string, seq<string>>,
                       namesBefore: map<string, string>, namesAfter: map<string, string>,
                       done: set<string>, lan: string,
                       groups: map<string, seq<string>>, index: map<string, string>,
                       created: string -> Option<string>, accepted: string -> nat -> bool)
    requires FreshTargets(tracks0, index, created) && names0.Keys == tracks0.Keys
    requires Reconciled(tracks0, names0, before, namesBefore, done, groups, index, created, accepted)
    requires lan in groups && lan !in done
    requires StepEffect(before, after, namesBefore, namesAfter, lan, groups, index, created, accepted)
    ensures Reconciled(tracks0, names0, after, namesAfter, done + {lan}, groups, index, created, accepted)
  {
    NamesStep(tracks0, names0, before, after, namesBefore, namesAfter, lan, groups, index, created, accepted);
    RefilledStep(tracks0, names0, before, after, namesBefore, namesAfter, done, lan, groups, index, created, accepted);
    PopulatedStep(tracks0, names0, before, after, namesBefore, namesAfter, done, lan, groups, index, created, accepted);
    UntouchedStep(tracks0, names0, before, after, namesBefore, namesAfter, done, lan, groups, index, created, accepted);
    KeysStep(tracks0, before, after, namesBefore, namesAfter, done, lan, groups, index, created, accepted);
  }

  lemma KeysStep(tracks0: map<string, seq<string>>, before: map<string, seq<string>>, after: map<string, seq<string>>,
                 namesBefore: map<string, string>, namesAfter: map<string, string>,
                 done: set<string>, lan: string,
                 groups: map<string, seq<string>>, index: map<string, string>,
                 created: string -> Option<string>, accepted: string -> nat -> bool)
    requires FreshTargets(tracks0, index, created)
    requires before.Keys == tracks0.Keys + CreatedIds(done, index, created)
    requires lan in groups
    requires StepEffect(before, after, namesBefore, namesAfter, lan, groups, index, created, accepted)
    ensures after.Keys == tracks0.Keys + CreatedIds(done + {lan}, index, created)
  {
    CreatedIdsStep(done, lan, index, created);
    if lan in index {
      assert index[lan] in tracks0;
    }
    assert after.Keys == before.Keys + (if lan !in index && created(lan).Some? then {created(lan).value} else {});
  }

  /** Only a created playlist gets a name, and its id is new: the names of the playlists there before stay. */
  lemma NamesStep(tracks0: map<string, seq<string>>, names0: map<string, string>,
                  before: map<string, seq<string>>, after: map<string, seq<string>>,
                  namesBefore: map<string, string>, namesAfter: map<string, string>, lan: string,
                  groups: map<string, seq<string>>, index: map<string, string>,
                  created: string -> Option<string>, accepted: string -> nat -> bool)
    requires FreshTargets(tracks0, index, created) && names0.Keys == tracks0.Keys
    requires forall id :: id in names0 ==> id in namesBefore && namesBefore[id] == names0[id]
    requires lan in groups
    requires StepEffect(before, after, namesBefore, namesAfter, lan, groups, index, created, accepted)
    ensures forall id :: id in names0 ==> id in namesAfter && namesAfter[id] == names0[id]
  {
    if lan !in index && created(lan).Some? {
      assert created(lan).value !in names0;
    }
  }

  lemma CreatedIdsStep(done: set<string>, lan: string, index: map<string, string>, created: string -> Option<string>)
    ensures CreatedIds(done + {lan}, index, created) ==
      CreatedIds(done, index, created) + (if lan !in index && created(lan).Some? then {created(lan).value} else {})
  {
  }

  lemma RefilledStep(tracks0: map<string, seq<string>>, names0: map<string, string>, before: map<string, seq<string>>, after: map<string, seq<string>>,
                     namesBefore: map<string, string>, namesAfter: map<string, string>,
                     done: set<string>, lan: string,
                     groups: map<string, seq<string>>, index: map<string, string>,
                     created: string -> Option<string>, accepted: string -> nat -> bool)
    requires FreshTargets(tracks0, index, created)
    requires Reconciled(tracks0, names0, before, namesBefore, done, groups, index, created, accepted)
    requires lan in groups && lan !in done
    requires StepEffect(before, after, namesBefore, namesAfter, lan, groups, index, created, accepted)
    ensures forall l :: l in done + {lan} && l in index ==>
      index[l] in after && after[index[l]] == Refilled(groups[l], accepted(l))
  {
    forall l | l in done + {lan} && l in index
      ensures index[l] in after && after[index[l]] == Refilled(groups[l], accepted(l))
    {
      if l != lan {
        assert index[l] in tracks0;
        if lan in index {
          assert index[l] != index[lan];
        } else if created(lan).Some? {
          assert created(lan).value != index[l];
        }
      }
    }
  }

  lemma PopulatedStep(tracks0: map<string, seq<string>>, names0: map<string, string>, before: map<string, seq<string>>, after: map<string, seq<string>>,
                      namesBefore: map<string, string>, namesAfter: map<string, string>,
                      done: set<string>, lan: string,
                      groups: map<string, seq<string>>, index: map<string, string>,
                      created: string -> Option<string>, accepted: string -> nat -> bool)
    requires FreshTargets(tracks0, index, created)
    requires Reconciled(tracks0, names0, before, namesBefore, done, groups, index, created, accepted)
    requires lan in groups && lan !in done
    requires StepEffect(before, after, namesBefore, namesAfter, lan, groups, index, created, accepted)
    ensures forall l :: l in done + {lan} && l !in index && Usable(created(l)) ==>
      created(l).value in after && created(l).value in namesAfter && namesAfter[created(l).value] == l &&
      after[created(l).value] == Populated(groups[l], accepted(l))
  {
    forall l | l in done + {lan} && l !in index && Usable(created(l))
      ensures created(l).value in after && created(l).value in namesAfter && namesAfter[created(l).value] == l
      ensures after[created(l).value] == Populated(groups[l], accepted(l))
    {
      if l != lan {
        assert created(l).value !in tracks0;
        if lan in index {
          assert index[lan] in tracks0;
        } else if created(lan).Some? {
          assert created(lan) != created(l);
        }
      }
    }
  }

  lemma UntouchedStep(tracks0: map<string, seq<string>>, names0: map<string, string>, before: map<string, seq<string>>, after: map<string, seq<string>>,
                      namesBefore: map<string, string>, namesAfter: map<string, string>,
                      done: set<string>, lan: string,
                      groups: map<string, seq<string>>, index: map<string, string>,
                      created: string -> Option<string>, accepted: string -> nat -> bool)
    requires FreshTargets(tracks0, index, created)
    requires Reconciled(tracks0, names0, before, namesBefore, done, groups, index, created, accepted)
    requires lan in groups && lan !in done
    requires StepEffect(before, after, namesBefore, namesAfter, lan, groups, index, created, accepted)
    ensures forall id :: id in tracks0 && (forall l :: l in done + {lan} && l in index ==> index[l] != id) ==>
      id in after && after[id] == tracks0[id]
  {
    forall id | id in tracks0 && (forall l :: l in done + {lan} && l in index ==> index[l] != id)
      ensures id in after && after[id] == tracks0[id]
    {
      if lan !in index && created(lan).Some? {
        assert created(lan).value !in tracks0;
      }
    }
  }

  /** While reconciling, the index still names existing playlists and unvisited labels' ids are still new. */
  lemma ReconciledTargets(tracks0: map<string, seq<string>>, names0: map<string, string>, tracks: map<string, seq<string>>,
                          names: map<string, string>, done: set<string>,
                          groups: map<string, seq<string>>, index: map<string, string>,
                          created: string -> Option<string>, accepted: string -> nat -> bool)
    requires FreshTargets(tracks0, index, created)
    requires Reconciled(tracks0, names0, tracks, names, done, groups, index, created, accepted)
    ensures forall name :: name in index ==> index[name] in tracks
    ensures forall l :: created(l).Some? && l !in done ==> created(l).value !in tracks
  {
  }

  /**
   * The reconcile loop of `process`, visiting the labels in `order`. A label
   * naming an existing playlist (`index`) has it emptied and refilled with its
   * URIs; any other label gets a new playlist through `create_playlist`, whose
   * outcome is ignored. `created(lan)` is the id the server gives the
   * playlist created for `lan`, and `accepted(lan)(i)` its verdict on slice
   * `i` of that label's URIs.
   */
  method Reconcile(api: RemoteApi, groups: map<string, seq<string>>, order: seq<string>,
                   index: map<string, string>,
                   created: string -> Option<string>, accepted: string -> nat -> bool)
    requires api.Valid()
    requires NoDuplicates(order) && forall lan :: lan in groups <==> lan in order
    requires FreshTargets(api.tracks, index, created)
    modifies api
    ensures api.Valid()
    ensures Reconciled(old(api.tracks), old(api.names), api.tracks, api.names, groups.Keys, groups, index, created, accepted)
    ensures api.log == old(api.log) + RunCalls(old(api.tracks), order, groups, index, created, accepted)
  {
    ghost var tracks0, names0, log0 := api.tracks, api.names, api.log;
    ghost var done: set<string> := {};
    ReconciledInitially(tracks0, names0, groups, index, created, accepted);
    for j := 0 to |order|
      invariant api.Valid()
      invariant Progress(tracks0, names0, log0, api.tracks, api.names, api.log, done, order, j, groups, index, created, accepted)
    {
      Visit(api, groups, order, j, done, index, created, accepted, tracks0, names0, log0);
      done := done + {order[j]};
    }
    assert order[..|order|] == order;
    assert done == groups.Keys;
  }

  /**
   * The reconcile loop after visiting `order[..j]`, the labels `done`: those
   * labels are reconciled and the log holds their requests, in order.
   */
  ghost predicate Progress(tracks0: map<string, seq<string>>, names0: map<string, string>, log0: seq<Call>,
                           tracks: map<string, seq<string>>, names: map<string, string>, log: seq<Call>,
                           done: set<string>, order: seq<string>, j: nat,
                           groups: map<string, seq<string>>, index: map<string, string>,
                           created: string -> Option<string>, accepted: string -> nat -> bool)
  {
    j <= |order| && (forall i :: 0 <= i < |order| ==> order[i] in groups) &&
    (forall name :: name in index ==> index[name] in tracks0) &&
    (forall lan :: lan in done <==> lan in order[..j]) &&
    Reconciled(tracks0, names0, tracks, names, done, groups, index, created, accepted) &&
    log == log0 + RunCalls(tracks0, order[..j], groups, index, created, accepted)
  }

  /** One visit of the reconcile loop: label `order[j]`, after the labels `done` before it. */
  method Visit(api: RemoteApi, groups: map<string, seq<string>>, order: seq<string>, j: nat, ghost done: set<string>,
               index: map<string, string>,
               created: string -> Option<string>, accepted: string -> nat -> bool,
               ghost tracks0: map<string, seq<string>>, ghost names0: map<string, string>, ghost log0: seq<Call>)
    requires api.Valid() && j < |order|
    requires NoDuplicates(order) && forall lan :: lan in groups <==> lan in order
    requires FreshTargets(tracks0, index, created) && names0.Keys == tracks0.Keys
    requires Progress(tracks0, names0, log0, api.tracks, api.names, api.log, done, order, j, groups, index, created, accepted)
    modifies api
    ensures api.Valid()
    ensures Progress(tracks0, names0, log0, api.tracks, api.names, api.log, done + {order[j]}, order, j + 1, groups, index, created, accepted)
  {
    var lan := order[j];
    assert lan !in done;
    ReconciledTargets(tracks0, names0, api.tracks, api.names, done, groups, index, created, accepted);
    ghost var before, namesBefore, logBefore := api.tracks, api.names, api.log;
    ReconcileOne(api, groups, lan, done, index, created, accepted);
    ProgressStep(tracks0, names0, log0, before, namesBefore, logBefore, api.tracks, api.names, api.log,
                 done, order, j, groups, index, created, accepted);
  }

  /** The requests of visiting `order[j]` extend the log of `order[..j]` to that of `order[..j + 1]`. */
  lemma VisitLogged(tracks0: map<string, seq<string>>, names0: map<string, string>, log0: seq<Call>,
                    before: map<string, seq<string>>, namesBefore: map<string, string>, logBefore: seq<Call>,
                    log: seq<Call>, done: set<string>, order: seq<string>, j: nat,
                    groups: map<string, seq<string>>, index: map<string, string>,
                    created: string -> Option<string>, accepted: string -> nat -> bool)
    requires j < |order| && order[j] !in done
    requires FreshTargets(tracks0, index, created)
    requires Progress(tracks0, names0, log0, before, namesBefore, logBefore, done, order, j, groups, index, created, accepted)
    requires forall name :: name in index ==> index[name] in before
    requires log == logBefore + StepCalls(before, order[j], groups, index, created, accepted)
    ensures log == log0 + RunCalls(tracks0, order[..j + 1], groups, index, created, accepted)
  {
    StepCallsAtVisit(tracks0, names0, before, namesBefore, done, order[j], groups, index, created, accepted);
    RunCallsStep(tracks0, order, j, groups, index, created, accepted);
    LogAppended(log0, logBefore, log, RunCalls(tracks0, order[..j], groups, index, created, accepted),
                StepCalls(tracks0, order[j], groups, index, created, accepted));
  }

  /** Visiting `order[j]` extends the progress of the reconcile loop by that label. */
  lemma ProgressStep(tracks0: map<string, seq<string>>, names0: map<string, string>, log0: seq<Call>,
                     before: map<string, seq<string>>, namesBefore: map<string, string>, logBefore: seq<Call>,
                     after: map<string, seq<string>>, namesAfter: map<string, string>, log: seq<Call>,
                     done: set<string>, order: seq<string>, j: nat,
                     groups: map<string, seq<string>>, index: map<string, string>,
                     created: string -> Option<string>, accepted: string -> nat -> bool)
    requires j < |order| && NoDuplicates(order)
    requires FreshTargets(tracks0, index, created) && names0.Keys == tracks0.Keys
    requires Progress(tracks0, names0, log0, before, namesBefore, logBefore, done, order, j, groups, index, created, accepted)
    requires forall name :: name in index ==> index[name] in before
    requires StepEffect(before, after, namesBefore, namesAfter, order[j], groups, index, created, accepted)
    requires log == logBefore + StepCalls(before, order[j], groups, index, created, accepted)
    ensures Progress(tracks0, names0, log0, after, namesAfter, log, done + {order[j]}, order, j + 1, groups, index, created, accepted)
  {
    var lan := order[j];
    assert lan !in done;
    VisitLogged(tracks0, names0, log0, before, namesBefore, logBefore, log, done, order, j, groups, index, created, accepted);
    ReconciledStep(tracks0, names0, before, after, namesBefore, namesAfter, done, lan, groups, index, created, accepted);
    PrefixExtended(order, j);
  }

  /** The existing-playlist path: `empty_playlist` then `update_playlist` on `playlistId`. */
  method Refill(api: RemoteApi, playlistId: string, uris: seq<string>, accepted: nat -> bool)
    requires api.Valid() && playlistId in api.tracks
    modifies api`tracks, api`log
    ensures api.Valid()
    ensures api.tracks == old(api.tracks)[playlistId := Refilled(uris, accepted)]
    ensures api.log == old(api.log) + RefillCalls(playlistId, old(api.tracks)[playlistId], uris)
  {
    EmptyPlaylist(api, playlistId);
    UpdatePlaylist(api, playlistId, uris, accepted);
    assert [] + Refilled(uris, accepted) == Refilled(uris, accepted);
  }

  /**
   * One step of the reconcile loop, for the label `lan` not yet visited: with
   * an indexed name, `empty_playlist` then `update_playlist` on that id;
   * otherwise `create_playlist` named after the label.
   */
  method ReconcileOne(api: RemoteApi, groups: map<string, seq<string>>, lan: string, ghost done: set<string>,
                      index: map<string, string>,
                      created: string -> Option<string>, accepted: string -> nat -> bool)
    requires api.Valid() && lan in groups && lan !in done
    requires forall name :: name in index ==> index[name] in api.tracks
    requires forall l :: created(l).Some? && l !in done ==> created(l).value !in api.tracks
    modifies api
    ensures api.Valid()
    ensures StepEffect(old(api.tracks), api.tracks, old(api.names), api.names, lan, groups, index, created, accepted)
    ensures api.log == old(api.log) + StepCalls(old(api.tracks), lan, groups, index, created, accepted)
  {
    if lan in index {
      Refill(api, index[lan], groups[lan], accepted(lan));
    } else {
      var _ := CreatePlaylist(api, lan, groups[lan], created(lan), accepted(lan));
    }
  }

  /** Every listed playlist exists remotely under the listed name. */
  ghost predicate ListedAsStored(listed: seq<Playlist>, names: map<string, string>)
  {
    forall i :: 0 <= i < |listed| ==> listed[i].playlistId in names && names[listed[i].playlistId] == listed[i].name
  }

  /** A listing server that only reports playlists as they exist remotely. */
  ghost predicate PagesAsStored(pages: PageQuery -> Option<seq<Playlist>>, names: map<string, string>)
  {
    forall q :: pages(q).Some? ==> ListedAsStored(pages(q).value, names)
  }

  /** Gathering pages of such a server yields only such playlists. */
  lemma {:induction false} GatheredAsStored(pages: PageQuery -> Option<seq<Playlist>>, names: map<string, string>,
                                            qs: seq<PageQuery>)
    requires PagesAsStored(pages, names)
    ensures ListedAsStored(Gathered(pages, qs), names)
  {
    if qs != [] {
      GatheredAsStored(pages, names, qs[..|qs| - 1]);
      var page := pages(qs[|qs| - 1]).GetOr([]);
      assert ListedAsStored(page, names);
      var all := Gathered(pages, qs[..|qs| - 1]) + page;
      forall i | 0 <= i < |all|
        ensures all[i].playlistId in names && names[all[i].playlistId] == all[i].name
      {
        if i >= |Gathered(pages, qs[..|qs| - 1])| {
          assert all[i] == page[i - |Gathered(pages, qs[..|qs| - 1])|];
        }
      }
    }
  }

  /** The name index of such a listing names existing playlists, one id per name. */
  lemma IndexAsStored(listed: seq<Playlist>, names: map<string, string>)
    requires ListedAsStored(listed, names)
    ensures forall name :: name in NameIndex(listed) ==>
      NameIndex(listed)[name] in names && names[NameIndex(listed)[name]] == name
  {
    forall name | name in NameIndex(listed)
      ensures NameIndex(listed)[name] in names && names[NameIndex(listed)[name]] == name
    {
      IndexFromLastPlaylist(listed, name);
    }
  }

  /** The label and URI of each saved track, labelled by the reply to its search. */
  function Labelled(items: seq<SavedTrack>, replies: nat -> SearchReply): (es: seq<Entry>)
    ensures |es| == |items|
    ensures forall i :: 0 <= i < |items| ==> es[i] == Entry(LabelOf(replies(i)), items[i].uri)
  {
    seq(|items|, (i: nat) requires i < |items| => Entry(LabelOf(replies(i)), items[i].uri))
  }

  /**
   * The first half of `process`: fetch the saved tracks (`savedTotal`,
   * `savedPages`), label them (`replies(i)` answers the search for track
   * `i`) and group the URIs by label.
   */
  method LabelledGroups(savedTotal: nat, savedPages: PageQuery -> Option<seq<SavedTrack>>,
                        replies: nat -> SearchReply)
    returns (groups: map<string, seq<string>>)
    ensures groups == Group(Labelled(Gathered(savedPages, PageQueries(savedTotal)), replies))
  {
    var items, _ := GetResource(savedTotal, savedPages);
    var songs := GetSongs(items);
    ResolveLabels(songs, seq(|songs|, (i: nat) => replies(i)));
    assert Entries(songs) == Labelled(items, replies);
    groups := GroupByLabel(songs);
  }

  /** The reconcile loop over the labels of `groups`, in the dictionary's iteration order, whatever it is. */
  method ReconcileAll(api: RemoteApi, groups: map<string, seq<string>>, index: map<string, string>,
                      created: string -> Option<string>, accepted: string -> nat -> bool)
    requires api.Valid()
    requires FreshTargets(api.tracks, index, created)
    modifies api
    ensures api.Valid()
    ensures Reconciled(old(api.tracks), old(api.names), api.tracks, api.names, groups.Keys, groups, index, created, accepted)
    ensures ReconcileLog(old(api.log), api.log, old(api.tracks), groups, index, created, accepted)
  {
    var order := Enumerate(groups.Keys);
    ghost var tracks0, log0 := api.tracks, api.log;
    Reconcile(api, groups, order, index, created, accepted);
    assert NoDuplicates(order) && (forall lan :: lan in groups <==> lan in order) &&
      api.log == log0 + RunCalls(tracks0, order, groups, index, created, accepted);
  }

  /**
   * Fetch the playlists (`playlistTotal`, `playlistPages`) and index them by
   * name. The indexed ids exist remotely and differ from every id the server
   * will give a created playlist.
   */
  method PlaylistIndex(api: RemoteApi, playlistTotal: nat, playlistPages: PageQuery -> Option<seq<Playlist>>,
                       created: string -> Option<string>)
    returns (index: map<string, string>)
    requires api.Valid()
    requires PagesAsStored(playlistPages, api.names)
    requires forall lan :: created(lan).Some? ==> created(lan).value !in api.tracks
    requires forall a, b :: created(a).Some? && created(a) == created(b) ==> a == b
    ensures index == NameIndex(Gathered(playlistPages, PageQueries(playlistTotal)))
    ensures FreshTargets(api.tracks, index, created)
  {
    var listed, _ := GetResource(playlistTotal, playlistPages);
    index := NameIndex(listed);
    GatheredAsStored(playlistPages, api.names, PageQueries(playlistTotal));
    IndexAsStored(listed, api.names);
  }

  /**
   * `process` after authorisation: group the saved tracks by label, fetch the
   * playlists (`playlistTotal`, `playlistPages`) and reconcile every label.
   * The outcome is stated through the grouping and the name index of what was
   * fetched.
   */
  method Process(api: RemoteApi,
                 savedTotal: nat, savedPages: PageQuery -> Option<seq<SavedTrack>>,
                 replies: nat -> SearchReply,
                 playlistTotal: nat, playlistPages: PageQuery -> Option<seq<Playlist>>,
                 created: string -> Option<string>, accepted: string -> nat -> bool)
    requires api.Valid()
    requires PagesAsStored(playlistPages, api.names)
    requires forall lan :: created(lan).Some? ==> created(lan).value !in api.tracks
    requires forall a, b :: created(a).Some? && created(a) == created(b) ==> a == b
    modifies api
    ensures api.Valid()
    ensures
      var groups := Group(Labelled(Gathered(savedPages, PageQueries(savedTotal)), replies));
      var index := NameIndex(Gathered(playlistPages, PageQueries(playlistTotal)));
      Reconciled(old(api.tracks), old(api.names), api.tracks, api.names, groups.Keys, groups, index, created, accepted) &&
      ReconcileLog(old(api.log), api.log, old(api.tracks), groups, index, created, accepted)
  {
    var groups := LabelledGroups(savedTotal, savedPages, replies);
    var index := PlaylistIndex(api, playlistTotal, playlistPages, created);
    ReconcileAll(api, groups, index, created, accepted);
  }
}
