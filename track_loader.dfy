/** The `$loadTrackType` function: it checks its arguments, normalises the
    engine token with its own replace chain, reuses or refreshes the
    command's single cached search result, and classifies the result's load
    type. */
module TrackLoader {
  import opened Wrappers
  import opened JsValues

  /** The loader's replace chain. Unlike the Manager's it maps `soundcloud`
      and has no `vkmusic` link; `youtube` still shadows `youtubemusic`. */
  function LoaderChain(s: string): string
  {
    ReplaceFirst(
      ReplaceFirst(
        ReplaceFirst(
          ReplaceFirst(
            ReplaceFirst(s, "youtube", "ytsearch"),
            "yandexmusic", "ymsearch"),
          "spotify", "spsearch"),
        "soundcloud", "scsearch"),
      "youtubemusic", "ytmsearch")
  }

  /** The engine token: the given type, or the configured engine when it is
      missing or empty, lower-cased and sent through the chain. There is no
      `|| 'ytsearch'` fallback here. */
  function LoaderEngine(typ: Option<string>, defaultEngine: string): string
  {
    var t := if typ.None? || typ.value == "" then defaultEngine else typ.value;
    LoaderChain(Lower(t))
  }

  /** A token without the letters `o` and `x` holds none of the chain's keys
      and passes through unchanged; `vkmusic`, which has no link here, is one. */
  lemma LoaderFixed(s: string)
    requires 'o' !in s && 'x' !in s
    ensures LoaderChain(s) == s
  {
    ReplaceFirstAbsent(s, "youtube", "ytsearch", 'o');
    ReplaceFirstAbsent(s, "yandexmusic", "ymsearch", 'x');
    ReplaceFirstAbsent(s, "spotify", "spsearch", 'o');
    ReplaceFirstAbsent(s, "soundcloud", "scsearch", 'o');
    ReplaceFirstAbsent(s, "youtubemusic", "ytmsearch", 'o');
  }

  lemma LoaderKeepsVkMusic(s: string)
    requires s == "vkmusic"
    ensures LoaderChain(s) == s
  {
    LoaderFixed(s);
  }

  lemma LoaderKeepsSearchPrefix(s: string)
    requires s == "ytsearch" || s == "ymsearch" || s == "vmsearch" || s == "spsearch" || s == "scsearch" || s == "ytmsearch"
    ensures LoaderChain(s) == s
  {
    LoaderFixed(s);
  }

  lemma LoaderYoutube(s: string, rest: string)
    requires s == "youtube" + rest && 'o' !in rest && 'x' !in rest
    ensures LoaderChain(s) == "ytsearch" + rest
  {
    ReplaceFirstPrefix(s, "youtube", rest, "ytsearch");
    var t := "ytsearch" + rest;
    assert 'o' !in t && 'x' !in t;
    ReplaceFirstAbsent(t, "yandexmusic", "ymsearch", 'x');
    ReplaceFirstAbsent(t, "spotify", "spsearch", 'o');
    ReplaceFirstAbsent(t, "soundcloud", "scsearch", 'o');
    ReplaceFirstAbsent(t, "youtubemusic", "ytmsearch", 'o');
  }

  /** `youtubemusic` becomes `ytsearchmusic` here too. */
  lemma LoaderYoutubeMusic(s: string, m: string)
    requires m == "music" && s == "youtube" + m
    ensures LoaderChain(s) == "ytsearch" + m
  {
    LoaderYoutube(s, m);
  }

  lemma LoaderYandexMusic(s: string, rest: string)
    requires s == "yandexmusic" + rest && 'o' !in rest
    ensures LoaderChain(s) == "ymsearch" + rest
  {
    assert 'o' !in s;
    ReplaceFirstAbsent(s, "youtube", "ytsearch", 'o');
    ReplaceFirstPrefix(s, "yandexmusic", rest, "ymsearch");
    var t := "ymsearch" + rest;
    assert 'o' !in t;
    ReplaceFirstAbsent(t, "spotify", "spsearch", 'o');
    ReplaceFirstAbsent(t, "soundcloud", "scsearch", 'o');
    ReplaceFirstAbsent(t, "youtubemusic", "ytmsearch", 'o');
  }

  lemma LoaderSpotifyLetters(s: string, rest: string)
    requires s == "spotify" + rest && 'u' !in rest && 'x' !in rest
    ensures 'u' !in s && 'x' !in s
  {
  }

  lemma LoaderSpotify(s: string, rest: string)
    requires s == "spotify" + rest && 'u' !in rest && 'x' !in rest && 'o' !in rest
    ensures LoaderChain(s) == "spsearch" + rest
  {
    LoaderSpotifyLetters(s, rest);
    ReplaceFirstAbsent(s, "youtube", "ytsearch", 'u');
    ReplaceFirstAbsent(s, "yandexmusic", "ymsearch", 'x');
    ReplaceFirstPrefix(s, "spotify", rest, "spsearch");
    var t := "spsearch" + rest;
    assert 'o' !in t;
    ReplaceFirstAbsent(t, "soundcloud", "scsearch", 'o');
    ReplaceFirstAbsent(t, "youtubemusic", "ytmsearch", 'o');
  }

  lemma LoaderSoundcloudLetters(s: string, rest: string)
    requires s == "soundcloud" + rest && 'y' !in rest && 'p' !in rest
    ensures 'y' !in s && 'p' !in s
  {
  }

  lemma LoaderSoundcloud(s: string, rest: string)
    requires s == "soundcloud" + rest && 'y' !in rest && 'p' !in rest && 'o' !in rest
    ensures LoaderChain(s) == "scsearch" + rest
  {
    LoaderSoundcloudLetters(s, rest);
    ReplaceFirstAbsent(s, "youtube", "ytsearch", 'y');
    ReplaceFirstAbsent(s, "yandexmusic", "ymsearch", 'y');
    ReplaceFirstAbsent(s, "spotify", "spsearch", 'p');
    ReplaceFirstPrefix(s, "soundcloud", rest, "scsearch");
    var t := "scsearch" + rest;
    assert 'o' !in t;
    ReplaceFirstAbsent(t, "youtubemusic", "ytmsearch", 'o');
  }

  /** Without a type of its own the call uses the configured engine, and a
      lower-case configured engine without `o` or `x`, such as every search
      prefix, reaches the search unchanged. */
  lemma LoaderUsesConfiguredEngine(typ: Option<string>, defaultEngine: string)
    requires typ.None? || typ.value == ""
    requires forall i :: 0 <= i < |defaultEngine| ==> !('A' <= defaultEngine[i] <= 'Z')
    requires 'o' !in defaultEngine && 'x' !in defaultEngine
    ensures LoaderEngine(typ, defaultEngine) == defaultEngine
  {
    LowerOfLowercase(defaultEngine);
    LoaderFixed(defaultEngine);
  }

  /** The load types the transport reports, and `Missing` for a result
      without one. */
  datatype LoadType = Track | Playlist | Search | Empty | Error | Missing

  /** A search result as the cache slot holds it; `query` is the tag this
      function writes onto it. */
  datatype LoadResult = LoadResult(loadType: LoadType, tracks: seq<string>, query: Option<string>)

  /** The `switch` on `res?.loadType`. */
  function Classify(res: Option<LoadResult>): (r: string)
  {
    if res.None? then "error"
    else match res.value.loadType
      case Track => "track"
      case Playlist => "playlist"
      case Search => "search"
      case _ => "error"
  }

  /** The classification is total over four answers, and each of the first
      three answers comes from exactly one load type. */
  lemma ClassifyTotal(res: Option<LoadResult>)
    ensures Classify(res) in {"track", "playlist", "search", "error"}
    ensures Classify(res) == "track" <==> res.Some? && res.value.loadType == Track
    ensures Classify(res) == "playlist" <==> res.Some? && res.value.loadType == Playlist
    ensures Classify(res) == "search" <==> res.Some? && res.value.loadType == Search
    ensures Classify(res) == "error" <==> res.None? || res.value.loadType in {Empty, Error, Missing}
  {
  }

  /** What the call reports: an error message, or the classification. */
  datatype Outcome = Reported(message: string) | Classified(result: string)

  const NO_MANAGER := "Voice manager is not defined."
  const NO_QUERY := "Please provide the title or link of the song you want to play."

  /** One call of the transport's search: the escaped query and the engine. */
  datatype SearchCall = SearchCall(query: string, engine: string)

  /** `addBrackets`, the escaping applied to the query. */
  type Escape = string -> string

  /** The queue's search; `None` stands for a falsy result. */
  type Searcher = SearchCall -> Option<LoadResult>

  /** The slot, the outcome and the searches made by one call. */
  datatype Step = Step(slot: Option<LoadResult>, outcome: Outcome, searches: seq<SearchCall>)

  /** The slot holds a result tagged with this escaped query. */
  predicate Hit(slot: Option<LoadResult>, key: string)
  {
    slot.Some? && slot.value.query == Some(key)
  }

  function Tag(res: Option<LoadResult>, key: string): Option<LoadResult>
  {
    if res.Some? then Some(res.value.(query := Some(key))) else None
  }

  /** One call, from the slot it finds to the slot it leaves. */
  function LoadStep(slot: Option<LoadResult>, managerPresent: bool, query: Option<string>, typ: Option<string>,
                    defaultEngine: string, escape: Escape, search: Searcher): Step
  {
    if !managerPresent then Step(slot, Reported(NO_MANAGER), [])
    else if query.None? || query.value == "" then Step(slot, Reported(NO_QUERY), [])
    else
      var key := escape(query.value);
      if Hit(slot, key) then Step(slot, Classified(Classify(slot)), [])
      else
        var call := SearchCall(key, LoaderEngine(typ, defaultEngine));
        var res := search(call);
        Step(Tag(res, key), Classified(Classify(res)), [call])
  }

  /** The command's data, whose `tracks` slot outlives the call. */
  class CommandData {
    var tracks: Option<LoadResult>

    constructor (tracks: Option<LoadResult>)
      ensures this.tracks == tracks
    {
      this.tracks := tracks;
    }
  }

  /** `$loadTrackType[query;type?]` run against the command data `d`. */
  method LoadTrackType(d: CommandData, managerPresent: bool, query: Option<string>, typ: Option<string>,
                       defaultEngine: string, escape: Escape, search: Searcher)
    returns (outcome: Outcome, searches: seq<SearchCall>)
    modifies d
    ensures Step(d.tracks, outcome, searches) ==
      LoadStep(old(d.tracks), managerPresent, query, typ, defaultEngine, escape, search)
  {
    searches := [];
    if !managerPresent {
      return Reported(NO_MANAGER), searches;
    }
    if query.None? || query.value == "" {
      return Reported(NO_QUERY), searches;
    }
    var engine := typ;
    if engine.None? || engine.value == "" {
      engine := Some(defaultEngine);
    }
    var token := LoaderChain(Lower(engine.value));
    var key := escape(query.value);
    var res: Option<LoadResult>;
    if d.tracks.Some? && d.tracks.value.query == Some(key) {
      res := d.tracks;
    } else {
      var call := SearchCall(key, token);
      res := search(call);
      searches := searches + [call];
    }
    d.tracks := res;
    if d.tracks.Some? {
      d.tracks := Some(d.tracks.value.(query := Some(key)));
    }
    outcome := Classified(Classify(res));
  }

  /** A missing manager or a missing or empty query is reported before
      anything else happens: no search, and the slot is left alone. */
  lemma MissingQueryNoSearch(slot: Option<LoadResult>, managerPresent: bool, query: Option<string>, typ: Option<string>,
                             defaultEngine: string, escape: Escape, search: Searcher)
    requires !managerPresent || query.None? || query.value == ""
    ensures var st := LoadStep(slot, managerPresent, query, typ, defaultEngine, escape, search);
      && st.searches == [] && st.slot == slot
      && st.outcome == Reported(if !managerPresent then NO_MANAGER else NO_QUERY)
  {
  }

  /** A slot tagged with the escaped query is a hit: no search, the slot is
      kept, and the stored result is classified. */
  lemma CacheHit(slot: Option<LoadResult>, query: string, typ: Option<string>,
                 defaultEngine: string, escape: Escape, search: Searcher)
    requires query != "" && Hit(slot, escape(query))
    ensures var st := LoadStep(slot, true, Some(query), typ, defaultEngine, escape, search);
      && st.searches == [] && st.slot == slot
      && st.outcome == Classified(Classify(slot))
  {
  }

  /** Otherwise the transport is searched exactly once, with the escaped
      query and the normalised engine, and its result, tagged, replaces the
      slot; a falsy result empties it. */
  lemma CacheMiss(slot: Option<LoadResult>, query: string, typ: Option<string>,
                  defaultEngine: string, escape: Escape, search: Searcher)
    requires query != "" && !Hit(slot, escape(query))
    ensures var st := LoadStep(slot, true, Some(query), typ, defaultEngine, escape, search);
      var call := SearchCall(escape(query), LoaderEngine(typ, defaultEngine));
      && st.searches == [call]
      && (search(call).None? ==> st.slot == None && st.outcome == Classified("error"))
      && (search(call).Some? ==>
            st.slot == Some(search(call).value.(query := Some(escape(query))))
            && st.outcome == Classified(Classify(search(call))))
  {
  }

  /** After a call that gets past its checks, a filled slot carries the
      escaped query, and its load type is the one classified. */
  lemma SlotTagged(slot: Option<LoadResult>, query: string, typ: Option<string>,
                   defaultEngine: string, escape: Escape, search: Searcher)
    requires query != ""
    ensures var st := LoadStep(slot, true, Some(query), typ, defaultEngine, escape, search);
      && (st.slot.Some? ==> Hit(st.slot, escape(query)))
      && st.outcome == Classified(Classify(st.slot))
  {
    var key := escape(query);
    if !Hit(slot, key) {
      var res := search(SearchCall(key, LoaderEngine(typ, defaultEngine)));
      assert Classify(Tag(res, key)) == Classify(res);
    }
  }

  /** Repeating a call with the same query, whatever the engine, after one
      that filled the slot searches nothing and classifies the same way:
      the cache is keyed on the query alone. */
  lemma RepeatIsHit(slot: Option<LoadResult>, query: string, typ1: Option<string>, typ2: Option<string>,
                    defaultEngine: string, escape: Escape, search: Searcher)
    requires query != ""
    ensures var first := LoadStep(slot, true, Some(query), typ1, defaultEngine, escape, search);
      var second := LoadStep(first.slot, true, Some(query), typ2, defaultEngine, escape, search);
      first.slot.Some? ==>
        && second.searches == []
        && second.slot == first.slot
        && second.outcome == first.outcome
  {
    SlotTagged(slot, query, typ1, defaultEngine, escape, search);
  }
}
