/** Option normalisation done by the `Manager` constructor before the
    transport superclass is built (src/classes/Manager.js, lines 11-38). */
module ManagerOptions {
  import opened Wrappers
  import opened JsValues

  /** The properties a `...nodes` rest pattern collects: never the keys the
      pattern names. */
  type RestProps = m: map<string, JsValue> | "host" !in m && "port" !in m && "url" !in m
    witness map[]

  /** One node descriptor as the caller wrote it: `host`, `port` and `url`
      are read, every other property is carried along in `rest`. */
  datatype NodeOption = NodeOption(host: JsValue, port: JsValue, url: JsValue, rest: RestProps)

  /** The `nodes` option: falsy, one bare descriptor, or an array of them. */
  datatype NodeList = NoNodes | Single(node: NodeOption) | List(items: seq<NodeOption>)

  /** A normalised node: the rest of the descriptor plus the derived `url`. */
  datatype Node = Node(url: JsValue, rest: RestProps)

  datatype RawOptions = RawOptions(
    nodes: NodeList,
    maxQueueSize: JsValue,
    maxPlaylistSize: JsValue,
    debug: JsValue,
    searchEngine: JsValue,
    moveOnDisconnect: JsValue,
    resume: JsValue,
    resumeByLibrary: JsValue,
    resumeTimeout: JsValue,
    reconnectInterval: JsValue,
    reconnectTries: JsValue,
    restTimeout: JsValue,
    userAgent: JsValue,
    voiceConnectionTimeout: JsValue,
    structures: JsValue)

  /** The options object handed to the transport superclass (its
      `nodeResolver` is `NodeSelection.Resolve`). */
  datatype ConnectionOptions = ConnectionOptions(
    moveOnDisconnect: JsValue,
    resume: JsValue,
    resumeByLibrary: JsValue,
    resumeTimeout: JsValue,
    reconnectInterval: JsValue,
    reconnectTries: JsValue,
    restTimeout: JsValue,
    userAgent: JsValue,
    voiceConnectionTimeout: JsValue,
    structures: JsValue)

  datatype Config = Config(
    nodes: seq<Node>,
    maxQueueSize: JsValue,
    maxPlaylistSize: JsValue,
    debug: JsValue,
    searchEngine: string,
    connection: ConnectionOptions)

  /** What the constructor throws. `SearchEngineNotString` is the TypeError
      raised by calling `toLowerCase` on a boolean, number or object. */
  datatype ConfigError = MissingClient | MissingNodes | SearchEngineNotString
  {
    function Message(): string
    {
      match this
      case MissingClient => "Client instance is not defined."
      case MissingNodes => "No nodes provided to connect on."
      case SearchEngineNotString => "options.searchEngine?.toLowerCase is not a function"
    }
  }

  const DEFAULT_ENGINE := "ytsearch"
  const DEFAULT_QUEUE_SIZE := Num(100)
  const DEFAULT_PLAYLIST_SIZE := Num(100)
  const DEFAULT_RESUME_TIMEOUT := Num(30)
  const DEFAULT_RECONNECT_INTERVAL := Num(5)
  const DEFAULT_RECONNECT_TRIES := Num(3)
  const DEFAULT_REST_TIMEOUT := Num(60)
  const DEFAULT_USER_AGENT := Str("aoi.lavalink")
  const DEFAULT_VOICE_TIMEOUT := Num(15)

  /** `Array.isArray(nodes) ? nodes : [nodes]`. */
  function NodeItems(l: NodeList): seq<NodeOption>
  {
    match l
    case NoNodes => []
    case Single(n) => [n]
    case List(items) => items
  }

  /** The given `url` is kept only when it is truthy and host and port are both falsy. */
  predicate KeepsUrl(n: NodeOption)
  {
    Truthy(n.url) && !Truthy(n.host) && !Truthy(n.port)
  }

  function NormalizeNode(n: NodeOption): Node
  {
    Node(if KeepsUrl(n) then n.url else Str(Interpolate(n.host) + ":" + Interpolate(n.port)), n.rest)
  }

  function NormalizeNodes(items: seq<NodeOption>): (r: seq<Node>)
  {
    seq(|items|, i requires 0 <= i < |items| => NormalizeNode(items[i]))
  }

  /** The Manager's replace chain. It has no `soundcloud` link, and its
      `youtube` link shadows the later `youtubemusic` one. */
  function EngineChain(s: string): string
  {
    ReplaceFirst(
      ReplaceFirst(
        ReplaceFirst(
          ReplaceFirst(
            ReplaceFirst(s, "youtube", "ytsearch"),
            "yandexmusic", "ymsearch"),
          "vkmusic", "vmsearch"),
        "spotify", "spsearch"),
      "youtubemusic", "ytmsearch")
  }

  /** `options.searchEngine?.toLowerCase().replace(...)... || 'ytsearch'`. */
  function SearchEngine(v: JsValue): Result<string, ConfigError>
  {
    match v
    case Undefined => Ok(DEFAULT_ENGINE)
    case Null => Ok(DEFAULT_ENGINE)
    case Str(s) =>
      var t := EngineChain(Lower(s));
      Ok(if t != "" then t else DEFAULT_ENGINE)
    case _ => Err(SearchEngineNotString)
  }

  /** The constructor's checks and `||` defaults, in the order the source evaluates them. */
  function Normalize(hasClient: bool, o: RawOptions): Result<Config, ConfigError>
  {
    if !hasClient then Err(MissingClient)
    else if o.nodes == NoNodes then Err(MissingNodes)
    else match SearchEngine(o.searchEngine)
      case Err(e) => Err(e)
      case Ok(engine) =>
        Ok(Config(
          NormalizeNodes(NodeItems(o.nodes)),
          Or(o.maxQueueSize, DEFAULT_QUEUE_SIZE),
          Or(o.maxPlaylistSize, DEFAULT_PLAYLIST_SIZE),
          Or(o.debug, Bool(false)),
          engine,
          ConnectionOptions(
            Or(o.moveOnDisconnect, Bool(false)),
            Or(o.resume, Bool(false)),
            Or(o.resumeByLibrary, Bool(false)),
            Or(o.resumeTimeout, DEFAULT_RESUME_TIMEOUT),
            Or(o.reconnectInterval, DEFAULT_RECONNECT_INTERVAL),
            Or(o.reconnectTries, DEFAULT_RECONNECT_TRIES),
            Or(o.restTimeout, DEFAULT_REST_TIMEOUT),
            Or(o.userAgent, DEFAULT_USER_AGENT),
            Or(o.voiceConnectionTimeout, DEFAULT_VOICE_TIMEOUT),
            Or(o.structures, Obj(map[])))))
  }

  /** A truthy given value passes through; a falsy or absent one is replaced by the default. */
  predicate Defaulted(given: JsValue, result: JsValue, default: JsValue)
  {
    (Truthy(given) ==> result == given) && (!Truthy(given) ==> result == default)
  }

  /** Construction fails exactly when the client is missing, `nodes` is falsy,
      or `searchEngine` is a non-nullish value that is not a string. */
  lemma NormalizeErrors(hasClient: bool, o: RawOptions)
    ensures !hasClient ==> Normalize(hasClient, o) == Err(MissingClient)
    ensures hasClient && o.nodes == NoNodes ==> Normalize(hasClient, o) == Err(MissingNodes)
    ensures hasClient && o.nodes != NoNodes ==>
      (Normalize(hasClient, o).Err? <==> !(o.searchEngine.Undefined? || o.searchEngine.Null? || o.searchEngine.Str?))
  {
  }

  /** A bare descriptor becomes a one-element list, a list keeps its length,
      and every node keeps its other properties and gets a truthy `url`. */
  lemma {:induction false} NodesNormalized(hasClient: bool, o: RawOptions)
    requires Normalize(hasClient, o).Ok?
    ensures var c := Normalize(hasClient, o).value;
      && |c.nodes| == |NodeItems(o.nodes)|
      && (o.nodes.Single? ==> |c.nodes| == 1)
      && (o.nodes.List? ==> |c.nodes| == |o.nodes.items|)
      && forall i :: 0 <= i < |c.nodes| ==>
           var n := NodeItems(o.nodes)[i];
           && c.nodes[i].rest == n.rest
           && (KeepsUrl(n) ==> c.nodes[i].url == n.url)
           && (!KeepsUrl(n) ==> c.nodes[i].url == Str(Interpolate(n.host) + ":" + Interpolate(n.port)))
           && Truthy(c.nodes[i].url)
  {
    var c := Normalize(hasClient, o).value;
    forall i | 0 <= i < |c.nodes|
      ensures Truthy(c.nodes[i].url)
    {
      var n := NodeItems(o.nodes)[i];
      if !KeepsUrl(n) {
        assert (Interpolate(n.host) + ":" + Interpolate(n.port))[|Interpolate(n.host)|] == ':';
      }
    }
  }

  /** Every option read with `||` gets its default when falsy or absent and
      keeps the given value when truthy. */
  lemma DefaultsApplied(hasClient: bool, o: RawOptions)
    requires Normalize(hasClient, o).Ok?
    ensures var c := Normalize(hasClient, o).value;
      && Defaulted(o.maxQueueSize, c.maxQueueSize, Num(100))
      && Defaulted(o.maxPlaylistSize, c.maxPlaylistSize, Num(100))
      && Defaulted(o.debug, c.debug, Bool(false))
      && Defaulted(o.moveOnDisconnect, c.connection.moveOnDisconnect, Bool(false))
      && Defaulted(o.resume, c.connection.resume, Bool(false))
      && Defaulted(o.resumeByLibrary, c.connection.resumeByLibrary, Bool(false))
      && Defaulted(o.resumeTimeout, c.connection.resumeTimeout, Num(30))
      && Defaulted(o.reconnectInterval, c.connection.reconnectInterval, Num(5))
      && Defaulted(o.reconnectTries, c.connection.reconnectTries, Num(3))
      && Defaulted(o.restTimeout, c.connection.restTimeout, Num(60))
      && Defaulted(o.userAgent, c.connection.userAgent, Str("aoi.lavalink"))
      && Defaulted(o.voiceConnectionTimeout, c.connection.voiceConnectionTimeout, Num(15))
      && Defaulted(o.structures, c.connection.structures, Obj(map[]))
  {
  }

  /** An absent or empty engine gives `ytsearch`; any other string gives the
      chain applied to its lower-case form, which is never empty. */
  lemma SearchEngineDefault(v: JsValue)
    ensures v.Undefined? || v.Null? || v == Str("") ==> SearchEngine(v) == Ok("ytsearch")
    ensures v.Str? && v.s != "" ==> SearchEngine(v) == Ok(EngineChain(Lower(v.s))) && EngineChain(Lower(v.s)) != ""
  {
    if v.Str? && v.s != "" {
      var l := Lower(v.s);
      var t1 := ReplaceFirst(l, "youtube", "ytsearch");
      ReplaceFirstNonEmpty(l, "youtube", "ytsearch");
      var t2 := ReplaceFirst(t1, "yandexmusic", "ymsearch");
      ReplaceFirstNonEmpty(t1, "yandexmusic", "ymsearch");
      var t3 := ReplaceFirst(t2, "vkmusic", "vmsearch");
      ReplaceFirstNonEmpty(t2, "vkmusic", "vmsearch");
      var t4 := ReplaceFirst(t3, "spotify", "spsearch");
      ReplaceFirstNonEmpty(t3, "spotify", "spsearch");
      ReplaceFirstNonEmpty(t4, "youtubemusic", "ytmsearch");
    }
  }

  /** The mapping ignores letter case. */
  lemma SearchEngineCaseInsensitive(s: string)
    ensures SearchEngine(Str(s)) == SearchEngine(Str(Lower(s)))
  {
    LowerIdempotent(s);
  }

  /** A token whose lower-case form contains none of the chain's keys comes out
      as that lower-case form. */
  lemma SearchEngineNoKey(s: string)
    requires s != ""
    requires IndexOf(Lower(s), "youtube").None? && IndexOf(Lower(s), "yandexmusic").None?
    requires IndexOf(Lower(s), "vkmusic").None? && IndexOf(Lower(s), "spotify").None?
    requires IndexOf(Lower(s), "youtubemusic").None?
    ensures SearchEngine(Str(s)) == Ok(Lower(s))
  {
    var l := Lower(s);
    ReplaceFirstSpec(l, "youtube", "ytsearch");
    ReplaceFirstSpec(l, "yandexmusic", "ymsearch");
    ReplaceFirstSpec(l, "vkmusic", "vmsearch");
    ReplaceFirstSpec(l, "spotify", "spsearch");
    ReplaceFirstSpec(l, "youtubemusic", "ytmsearch");
  }

  /** A token without the letters `o`, `x` and `k` contains none of the
      chain's keys and passes through unchanged. */
  lemma ChainFixed(s: string)
    requires 'o' !in s && 'x' !in s && 'k' !in s
    ensures EngineChain(s) == s
  {
    ReplaceFirstAbsent(s, "youtube", "ytsearch", 'o');
    ReplaceFirstAbsent(s, "yandexmusic", "ymsearch", 'x');
    ReplaceFirstAbsent(s, "vkmusic", "vmsearch", 'k');
    ReplaceFirstAbsent(s, "spotify", "spsearch", 'o');
    ReplaceFirstAbsent(s, "youtubemusic", "ytmsearch", 'o');
  }

  /** The search prefixes themselves are fixed points of the chain. */
  lemma ChainKeepsSearchPrefix(s: string)
    requires s == "ytsearch" || s == "ymsearch" || s == "vmsearch" || s == "spsearch" || s == "scsearch" || s == "ytmsearch"
    ensures EngineChain(s) == s
  {
    ChainFixed(s);
  }

  /** A token without the letters `y`, `x`, `k` and `p` also passes through;
      `soundcloud`, which this chain has no link for, is one. */
  lemma ChainFixedNoY(s: string)
    requires 'y' !in s && 'x' !in s && 'k' !in s && 'p' !in s
    ensures EngineChain(s) == s
  {
    ReplaceFirstAbsent(s, "youtube", "ytsearch", 'y');
    ReplaceFirstAbsent(s, "yandexmusic", "ymsearch", 'x');
    ReplaceFirstAbsent(s, "vkmusic", "vmsearch", 'k');
    ReplaceFirstAbsent(s, "spotify", "spsearch", 'p');
    ReplaceFirstAbsent(s, "youtubemusic", "ytmsearch", 'y');
  }

  lemma ChainKeepsSoundcloud(s: string)
    requires s == "soundcloud"
    ensures EngineChain(s) == s
  {
    ChainFixedNoY(s);
  }

  /** A token that starts with `youtube` gets `ytsearch` in its place; the
      rest of the token is kept when it holds none of the later keys. */
  lemma ChainYoutube(s: string, rest: string)
    requires s == "youtube" + rest && 'o' !in rest && 'x' !in rest && 'k' !in rest
    ensures EngineChain(s) == "ytsearch" + rest
  {
    ReplaceFirstPrefix(s, "youtube", rest, "ytsearch");
    var t := "ytsearch" + rest;
    assert 'o' !in t && 'x' !in t && 'k' !in t;
    ReplaceFirstAbsent(t, "yandexmusic", "ymsearch", 'x');
    ReplaceFirstAbsent(t, "vkmusic", "vmsearch", 'k');
    ReplaceFirstAbsent(t, "spotify", "spsearch", 'o');
    ReplaceFirstAbsent(t, "youtubemusic", "ytmsearch", 'o');
  }

  lemma ChainYandexMusic(s: string, rest: string)
    requires s == "yandexmusic" + rest && 'o' !in rest && 'k' !in rest
    ensures EngineChain(s) == "ymsearch" + rest
  {
    assert 'o' !in s;
    ReplaceFirstAbsent(s, "youtube", "ytsearch", 'o');
    ReplaceFirstPrefix(s, "yandexmusic", rest, "ymsearch");
    var t := "ymsearch" + rest;
    assert 'o' !in t && 'k' !in t;
    ReplaceFirstAbsent(t, "vkmusic", "vmsearch", 'k');
    ReplaceFirstAbsent(t, "spotify", "spsearch", 'o');
    ReplaceFirstAbsent(t, "youtubemusic", "ytmsearch", 'o');
  }

  lemma ChainVkMusic(s: string, rest: string)
    requires s == "vkmusic" + rest && 'o' !in rest && 'x' !in rest
    ensures EngineChain(s) == "vmsearch" + rest
  {
    assert 'o' !in s && 'x' !in s;
    ReplaceFirstAbsent(s, "youtube", "ytsearch", 'o');
    ReplaceFirstAbsent(s, "yandexmusic", "ymsearch", 'x');
    ReplaceFirstPrefix(s, "vkmusic", rest, "vmsearch");
    var t := "vmsearch" + rest;
    assert 'o' !in t;
    ReplaceFirstAbsent(t, "spotify", "spsearch", 'o');
    ReplaceFirstAbsent(t, "youtubemusic", "ytmsearch", 'o');
  }

  lemma ChainSpotifyLetters(s: string, rest: string)
    requires s == "spotify" + rest && 'u' !in rest && 'x' !in rest && 'k' !in rest
    ensures 'u' !in s && 'x' !in s && 'k' !in s
  {
  }

  lemma ChainSpotify(s: string, rest: string)
    requires s == "spotify" + rest && 'u' !in rest && 'x' !in rest && 'k' !in rest && 'o' !in rest
    ensures EngineChain(s) == "spsearch" + rest
  {
    ChainSpotifyLetters(s, rest);
    ReplaceFirstAbsent(s, "youtube", "ytsearch", 'u');
    ReplaceFirstAbsent(s, "yandexmusic", "ymsearch", 'x');
    ReplaceFirstAbsent(s, "vkmusic", "vmsearch", 'k');
    ReplaceFirstPrefix(s, "spotify", rest, "spsearch");
    var t := "spsearch" + rest;
    assert 'o' !in t;
    ReplaceFirstAbsent(t, "youtubemusic", "ytmsearch", 'o');
  }

  /** `youtubemusic` never reaches its own link: the `youtube` link rewrites
      its prefix first, leaving `ytsearchmusic`. */
  lemma ChainYoutubeMusic(s: string, m: string)
    requires m == "music" && s == "youtube" + m
    ensures EngineChain(s) == "ytsearch" + m
  {
    ChainYoutube(s, m);
  }

  /** A lower-case token the chain does not empty is returned as the chain made it. */
  lemma SearchEngineOfLowercase(s: string, t: string)
    requires forall i :: 0 <= i < |s| ==> !('A' <= s[i] <= 'Z')
    requires EngineChain(s) == t && t != ""
    ensures SearchEngine(Str(s)) == Ok(t)
  {
    LowerOfLowercase(s);
  }

  /** One node given by host and port and no other options: its `url` is
      `host:port`, and the queue size and engine take their defaults. */
  lemma SingleHostPortDefaults(host: string, port: nat, o: RawOptions)
    requires host != ""
    requires o.nodes == List([NodeOption(Str(host), Num(port), Undefined, map[])])
    requires o.maxQueueSize == Undefined && o.searchEngine == Undefined
    ensures Normalize(true, o).Ok?
    ensures Normalize(true, o).value.maxQueueSize == Num(100)
    ensures Normalize(true, o).value.searchEngine == "ytsearch"
    ensures Normalize(true, o).value.nodes == [Node(Str(host + ":" + NatToDecimal(port)), map[])]
  {
    assert SearchEngine(o.searchEngine) == Ok(DEFAULT_ENGINE);
    var n := o.nodes.items[0];
    assert !KeepsUrl(n);
    assert NormalizeNodes(NodeItems(o.nodes)) == [NormalizeNode(n)];
  }
}
