/**
 * Label resolution (`get_songs_and_lan`, second loop): each track's label is
 * read from `response.hits[0].result.language` of its search reply; a `None`
 * language, a missing key (`KeyError`) or an empty hit list (`IndexError`)
 * gives the fallback label `"unidentified"`.
 */
module Labels {
  import opened Wrappers
  import opened Records

  /** The fallback label. */
  const Unidentified := "unidentified"

  /** The `language` field of a hit's `result`: absent, JSON `null`, or a string. */
  datatype LanguageField = NoLanguageKey | NullLanguage | Language(name: string)

  /** One search hit; `result` is `None` when the hit has no `result` key. */
  datatype Hit = Hit(result: Option<LanguageField>)

  /**
   * The body of one search reply; `hits` is `None` when `response` or
   * `response.hits` is missing.
   */
  datatype SearchReply = SearchReply(hits: Option<seq<Hit>>)

  /** The reply's first hit carries the non-null language `name`. */
  predicate HasLanguage(reply: SearchReply, name: string)
  {
    reply.hits.Some? && |reply.hits.value| > 0 &&
    reply.hits.value[0].result == Some(Language(name))
  }

  /**
   * The label a track gets from its reply: the first hit's language when it
   * has one, otherwise the fallback.
   */
  function LabelOf(reply: SearchReply): (lan: string)
    ensures HasLanguage(reply, lan) || (lan == Unidentified && forall name :: !HasLanguage(reply, name))
  {
    match reply.hits
    case None => Unidentified                      // KeyError
    case Some(hits) =>
      if |hits| == 0 then Unidentified              // IndexError
      else match hits[0].result
        case None => Unidentified                  // KeyError
        case Some(NoLanguageKey) => Unidentified   // KeyError
        case Some(NullLanguage) => Unidentified    // language is None
        case Some(Language(name)) => name
  }

  /** An empty hit list (the `IndexError` case) gives the fallback label. */
  lemma NoHitsIsUnidentified()
    ensures LabelOf(SearchReply(Some([]))) == Unidentified
  {
  }

  /**
   * Only `None` is replaced: a first hit whose language is the empty string
   * keeps the empty string as its label.
   */
  lemma EmptyLanguageKept(rest: seq<Hit>)
    ensures LabelOf(SearchReply(Some([Hit(Some(Language("")))] + rest))) == ""
  {
  }

  /**
   * The resolution loop. `replies[i]` is the reply to the search submitted for
   * `tracks[i]`; the concurrent requests are matched back to their tracks by
   * position, so the replies arrive aligned with the tracks.
   */
  method ResolveLabels(tracks: seq<Song>, replies: seq<SearchReply>)
    requires |replies| == |tracks| && Distinct(tracks)
    modifies set t | t in tracks
    ensures forall i :: 0 <= i < |tracks| ==> tracks[i].lan == Some(LabelOf(replies[i]))
  {
    for i := 0 to |tracks|
      invariant forall k :: 0 <= k < i ==> tracks[k].lan == Some(LabelOf(replies[k]))
    {
      var lan := Unidentified;
      match replies[i].hits {
        case None =>
        case Some(hits) =>
          if |hits| > 0 {
            match hits[0].result {
              case Some(Language(name)) => lan := name;
              case _ =>
            }
          }
      }
      tracks[i].lan := Some(lan);
    }
  }
}
