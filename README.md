# aoi.lavalink core, modelled in Dafny

aoi.lavalink connects the aoi.js bot framework to Lavalink audio nodes
through the Shoukaku client. This project models the deterministic part of
that package:

- **Manager configuration** (`ManagerOptions`, `JsValues`):
   - the constructor's option checks;
   - wrapping of the node list and derivation of each node `url`;
   - the `||` defaults;
   - the search-engine token: lower-cased, rewritten by a chain of
     first-occurrence `String.prototype.replace` calls, and defaulted to
     `ytsearch`.
- **Node selection** (`NodeSelection`): the `nodeResolver` closure. It keeps
  the nodes in state 2 (connected), sorts them stably by `penalties` and
  takes the first one.
- **Voice-event registries and dispatch** (`Handlers`, `VoiceManager`):
   - the sixteen registries;
   - `voiceEvent` and its sixteen convenience methods;
   - the listener `#bindEvents` binds to every registry. It walks the
     registry in insertion order and works out each handler's guild and
     channel: a literal channel id, a `$` channel script, the
     compiled-handler path, or the fallback to the dispatcher's channel. It
     then invokes the handler.
- **Track loading** (`TrackLoader`): `$loadTrackType`.
   - It checks its arguments and normalises the engine token with its own
     replace chain.
   - It reuses the command's single cached search result when that is
     tagged with the same escaped query. Otherwise it searches once and
     replaces the slot.
   - It classifies the result's load type as `track`, `playlist`, `search`
     or `error`.

Pure parts are functions with lemmas about them. Parts that change state
are imperative Dafny:

- The Manager is a class whose `registries` field `VoiceEvent` and the
  convenience methods reassign.
- `Dispatch` is a loop proved against the specification `Executed(Plan(...))`.
- The command data is a class whose `tracks` slot `LoadTrackType`
  overwrites and tags.

External behaviour is passed in as parameters:

- the channel-script interpreter, as a function from the script call to
  the `code` it yields;
- whether a handler invocation returns or throws;
- the query escaping (`addBrackets`);
- the queue's search.

The guild and channel caches are maps.

### Behaviour as the code has it

- An empty `nodes` array is truthy, so the constructor accepts it. Only a
  falsy `nodes` is refused.
- The `youtube` link runs before the `youtubemusic` link in both chains. For
  a token with a single `youtube` it shadows `youtubemusic`: `youtubemusic`
  becomes `ytsearchmusic` (`ChainYoutubeMusic`, `LoaderYoutubeMusic`). The
  last link still fires when `youtube` occurs twice, because each `replace`
  rewrites only the first occurrence: `youtubeyoutubemusic` becomes
  `ytsearchytmsearch`.
- The Manager chain has no `soundcloud` link (`ChainKeepsSoundcloud`). The
  loader chain has no `vkmusic` link (`LoaderKeepsVkMusic`).
- `trackEnd(cmd)` registers into the `trackStart` registry
  (`Manager.TrackEnd`, `TrackEndFeedsTrackStart`).
- The dispatch loop has no `try`/`catch`. A handler that throws is the last
  one to run for that firing (`Executed`, `ExecutedStopsAtThrow`).
- A `voiceEvent` name inherited from `Object.prototype`, such as
  `toString`, finds a truthy value without a `set` method, so the call
  throws. It is modelled as the outcome `Throws`.
- The loader's cache is keyed on the escaped query alone. A repeat call
  with a different engine still hits (`RepeatIsHit`).

## Model

| member | source | states |
|---|---|---|
| JsValues.Truthy | src/classes/Manager.js:11-38 | the falsy values are exactly `undefined`, `null`, `false`, `0` and `''`; every other value is truthy |
| JsValues.Or | src/classes/Manager.js:18-20 | the `or` of two values is one of them, and truthy whenever the default is |
| JsValues.NatToDecimal | src/classes/Manager.js:16 | the text of a port number is a canonical numeral (digits, no leading zero) whose decimal value is that number |
| JsValues.NatToDecimalOfNumeral | src/classes/Manager.js:16 | every canonical numeral is the text of its own value, so number and text determine each other |
| JsValues.Interpolate | src/classes/Manager.js:16 | `${v}` gives `undefined` and `null` for those values, a string itself, and for a number its canonical numeral, after a `-` when negative |
| JsValues.Lower | src/classes/Manager.js:21 | `toLowerCase` keeps the length |
| JsValues.LowerIdempotent | src/classes/Manager.js:21 | lower-casing twice is lower-casing once |
| JsValues.LowerOfLowercase | src/classes/Manager.js:21 | a token without upper-case letters is its own lower-case form |
| JsValues.IndexFrom | src/classes/Manager.js:22-26 | the search finds an occurrence at or after the start with none before it, or reports that there is none |
| JsValues.ReplaceFirst | src/classes/Manager.js:22-26 | `replace` with a string pattern, as a left-to-right scan; what it computes is stated by `ReplaceFirstSpec` |
| JsValues.ReplaceFirstSpec | src/classes/Manager.js:22-26 | `replace` with a string pattern changes nothing when the pattern is absent; otherwise it replaces exactly the first occurrence and keeps the text around it |
| JsValues.ReplaceFirstPrefix | src/classes/Manager.js:22-26 | a pattern that starts the token is replaced there |
| JsValues.ReplaceFirstAbsent | src/classes/Manager.js:22-26 | a pattern with a letter the token lacks leaves the token unchanged |
| ManagerOptions.Normalize | src/classes/Manager.js:11-38 | the constructor's checks and defaults; stated by `NormalizeErrors`, `NodesNormalized`, `DefaultsApplied` and `SingleHostPortDefaults` |
| ManagerOptions.NormalizeNode | src/classes/Manager.js:14-17 | one descriptor's rest and derived `url`; stated by `NodesNormalized` |
| ManagerOptions.NormalizeNodes | src/classes/Manager.js:14-17 | the `map` over the descriptors, one node each in order; stated by `NodesNormalized` |
| ManagerOptions.EngineChain | src/classes/Manager.js:22-26 | the five `replace` links in source order; stated by the `Chain` lemmas below |
| ManagerOptions.SearchEngine | src/classes/Manager.js:21-26 | the engine option or the TypeError; stated by `SearchEngineDefault`, `SearchEngineCaseInsensitive`, `SearchEngineNoKey` and `SearchEngineOfLowercase` |
| ManagerOptions.NormalizeErrors | src/classes/Manager.js:11-26 | construction fails with "Client instance is not defined." without a client, then with "No nodes provided to connect on." for falsy `nodes`, and otherwise exactly when `searchEngine` is a non-nullish non-string |
| ManagerOptions.NodesNormalized | src/classes/Manager.js:13-17 | a bare node becomes a one-element list and a list keeps its length; each node keeps its other properties; `url` is the given one exactly when it is truthy and host and port are falsy, otherwise `${host}:${port}`; it is always truthy |
| ManagerOptions.DefaultsApplied | src/classes/Manager.js:18-38 | every option read with `or` keeps a truthy given value and otherwise takes its default (100, 100, false, false, false, false, 30, 5, 3, 60, 'aoi.lavalink', 15, {}) |
| ManagerOptions.SearchEngineDefault | src/classes/Manager.js:21-26 | an absent, null or empty engine gives `ytsearch`; any other string gives the chain applied to its lower-case form, which is never empty |
| ManagerOptions.SearchEngineCaseInsensitive | src/classes/Manager.js:21-26 | the engine does not depend on letter case |
| ManagerOptions.SearchEngineNoKey | src/classes/Manager.js:21-26 | a token whose lower-case form holds none of the five keys comes out as that lower-case form |
| ManagerOptions.SearchEngineOfLowercase | src/classes/Manager.js:21-26 | for a lower-case token the engine is what the chain makes of it, when that is not empty |
| ManagerOptions.ChainFixed | src/classes/Manager.js:22-26 | a token without `o`, `x` and `k` passes through the chain unchanged |
| ManagerOptions.ChainKeepsSearchPrefix | src/classes/Manager.js:22-26 | `ytsearch`, `ymsearch`, `vmsearch`, `spsearch`, `scsearch` and `ytmsearch` pass through unchanged |
| ManagerOptions.ChainFixedNoY | src/classes/Manager.js:22-26 | a token without `y`, `x`, `k` and `p` passes through unchanged |
| ManagerOptions.ChainKeepsSoundcloud | src/classes/Manager.js:22-26 | `soundcloud` has no link in this chain and is kept |
| ManagerOptions.ChainYoutube | src/classes/Manager.js:22 | `youtube` + rest, where rest holds no `o`, `x` or `k`, becomes `ytsearch` + rest; other rests can be rewritten by later links (`youtubespotify` ends as `ytsearchspsearch`) |
| ManagerOptions.ChainYandexMusic | src/classes/Manager.js:23 | `yandexmusic` + rest, where rest holds no `o` or `k`, becomes `ymsearch` + rest |
| ManagerOptions.ChainVkMusic | src/classes/Manager.js:24 | `vkmusic` + rest, where rest holds no `o` or `x`, becomes `vmsearch` + rest |
| ManagerOptions.ChainSpotify | src/classes/Manager.js:25 | `spotify` + rest, where rest holds no `u`, `x`, `k` or `o`, becomes `spsearch` + rest |
| ManagerOptions.ChainYoutubeMusic | src/classes/Manager.js:22-26 | `youtubemusic` becomes `ytsearchmusic`: the `youtube` link fires first |
| ManagerOptions.SingleHostPortDefaults | src/classes/Manager.js:11-26 | one node given by host and port and nothing else is accepted, gets `url` `host:port`, queue size 100 and engine `ytsearch` |
| NodeSelection.Connected | src/classes/Manager.js:41 | the filter keeps exactly the state-2 nodes and never adds any |
| NodeSelection.ConnectedAppend | src/classes/Manager.js:41 | filtering keeps the order: the filter of a concatenation is the concatenation of the filters |
| NodeSelection.ConnectedSingle | src/classes/Manager.js:41 | a single node is kept exactly when it is connected |
| NodeSelection.InsertionPoint | src/classes/Manager.js:42 | the insertion point lies after every leading node with strictly lower penalties and before the first node that is not lower |
| NodeSelection.Insert | src/classes/Manager.js:42 | insertion keeps the order sorted and adds exactly the new node |
| NodeSelection.InsertAt | src/classes/Manager.js:42 | the new node goes in at the insertion point, ahead of every node with equal penalties, and the other nodes keep their order |
| NodeSelection.SortByPenalties | src/classes/Manager.js:42 | the sort gives an ascending permutation of its input |
| NodeSelection.SortStable | src/classes/Manager.js:42 | the sort is stable: for every penalty value, the nodes with that value come out in input order |
| NodeSelection.Resolve | src/classes/Manager.js:39-44 | filter, sort and `shift`; stated by `ResolveStep`, `ResolveNone`, `ResolveSound` and `ResolvePicksEarliestBest` |
| NodeSelection.ResolveStep | src/classes/Manager.js:39-44 | with one more node in front, that node is picked if connected and no later connected node has strictly lower penalties |
| NodeSelection.ResolveNone | src/classes/Manager.js:39-44 | nothing is resolved exactly when no node is connected |
| NodeSelection.ResolveSound | src/classes/Manager.js:39-44 | a resolved node is a connected input node whose penalties are at most every connected node's |
| NodeSelection.ResolvePicksEarliestBest | src/classes/Manager.js:39-44 | ties on the lowest penalties go to the earliest node in iteration order |
| Handlers.TagOf | src/classes/Manager.js:117 | a name selects the registry of that name, or none |
| Handlers.TagOfName | src/classes/Manager.js:47-64 | every registry is found again under its own name |
| Handlers.NameInjective | src/classes/Manager.js:47-64 | the sixteen registry names are distinct |
| Handlers.AllTagsComplete | src/classes/Manager.js:47-64 | the list of registries has sixteen distinct entries and holds every tag |
| Handlers.InheritedNotRegistry | src/classes/Manager.js:117-119 | no `Object.prototype` name is a registry name |
| Handlers.EmptyRegistries | src/classes/Manager.js:47-64 | the table starts with all sixteen registries, each empty |
| Handlers.Register | src/classes/Manager.js:115-121 | `voiceEvent` on the registry table; stated by `RegisterSpec` |
| Handlers.RegisterSpec | src/classes/Manager.js:115-121 | `voiceEvent` appends exactly when the handler is present with non-empty `code` and the name is a registry; it appends at index `size` and leaves every other registry alone; an inherited name throws; every other call changes nothing |
| Handlers.TrackEndFeedsTrackStart | src/classes/Manager.js:128-131 | `trackEnd` registration never touches the `trackEnd` registry and appends a valid handler to `trackStart` |
| Handlers.ResolveChannel | src/classes/Manager.js:88-96 | the channel a handler gets, case by case; stated by the four lemmas below and proved equal to the source's step-by-step reassignment in `Manager.ChannelFor` |
| Handlers.ChannelFallsBackToOrigin | src/classes/Manager.js:88-96 | a cached origin channel is never lost; no channel is resolved only when the origin is missing; a handler without a channel gets the origin |
| Handlers.LiteralChannelWins | src/classes/Manager.js:88 | a compiled handler, or an interpreted one without `$`, whose channel is cached gets that channel |
| Handlers.CompiledIgnoresScript | src/classes/Manager.js:101-104 | compiled handlers do not run the channel script |
| Handlers.ScriptChannelWins | src/classes/Manager.js:90-95 | an interpreted `$` handler gets the channel its script names when that is cached |
| Handlers.Plan | src/classes/Manager.js:86-104 | the plan holds every handler of the registry once, in insertion order |
| Handlers.Executed | src/classes/Manager.js:86-105 | the handlers that run are a prefix of the plan; all but the last returned; the plan is cut short only after one that threw |
| Handlers.ExecutedAllComplete | src/classes/Manager.js:86-105 | when no handler throws, every handler runs once in order |
| Handlers.ExecutedStopsAtThrow | src/classes/Manager.js:86-105 | the first handler that throws is the last to run |
| VoiceManager.Manager.constructor | src/classes/Manager.js:47-64 | a new manager holds its configuration and sixteen empty registries |
| VoiceManager.Manager.Create | src/classes/Manager.js:10-64 | construction fails with the normaliser's error, or yields a fresh manager with the normalised configuration and empty registries |
| VoiceManager.Manager.VoiceEvent | src/classes/Manager.js:115-121 | the new registries and the outcome are those of `Register`; all sixteen registries stay present |
| VoiceManager.Manager.TrackStart | src/classes/Manager.js:123-126 | registers into `trackStart`; all sixteen registries stay present |
| VoiceManager.Manager.TrackEnd | src/classes/Manager.js:128-131 | registers into `trackStart`, not `trackEnd`; all sixteen registries stay present |
| VoiceManager.Manager.QueueStart | src/classes/Manager.js:133-136 | registers into `queueStart`; all sixteen registries stay present |
| VoiceManager.Manager.QueueEnd | src/classes/Manager.js:138-141 | registers into `queueEnd`; all sixteen registries stay present |
| VoiceManager.Manager.TrackStuck | src/classes/Manager.js:143-146 | registers into `trackStuck`; all sixteen registries stay present |
| VoiceManager.Manager.TrackPaused | src/classes/Manager.js:148-151 | registers into `trackPaused`; all sixteen registries stay present |
| VoiceManager.Manager.TrackResumed | src/classes/Manager.js:153-156 | registers into `trackResumed`; all sixteen registries stay present |
| VoiceManager.Manager.NodeConnect | src/classes/Manager.js:158-161 | registers into `nodeConnect`; all sixteen registries stay present |
| VoiceManager.Manager.NodeReconnect | src/classes/Manager.js:163-166 | registers into `nodeReconnect`; all sixteen registries stay present |
| VoiceManager.Manager.NodeDisconnect | src/classes/Manager.js:168-171 | registers into `nodeDisconnect`; all sixteen registries stay present |
| VoiceManager.Manager.NodeError | src/classes/Manager.js:173-176 | registers into `nodeError`; all sixteen registries stay present |
| VoiceManager.Manager.NodeDestroy | src/classes/Manager.js:178-181 | registers into `nodeDestroy`; all sixteen registries stay present |
| VoiceManager.Manager.NodeRaw | src/classes/Manager.js:183-186 | registers into `nodeRaw`; all sixteen registries stay present |
| VoiceManager.Manager.SocketClosed | src/classes/Manager.js:188-191 | registers into `socketClosed`; all sixteen registries stay present |
| VoiceManager.Manager.PlayerCreate | src/classes/Manager.js:193-196 | registers into `playerCreate`; all sixteen registries stay present |
| VoiceManager.Manager.PlayerDestroy | src/classes/Manager.js:198-201 | registers into `playerDestroy`; all sixteen registries stay present |
| VoiceManager.Manager.ChannelFor | src/classes/Manager.js:88-96 | the step-by-step channel reassignment yields the case-by-case resolution `ResolveChannel` |
| VoiceManager.Manager.Dispatch | src/classes/Manager.js:82-107 | for a manager whose sixteen registries are all present, the invocations made are the registry's handlers in insertion order, each with its guild and resolved channel, up to and including the first that throws |
| TrackLoader.LoaderChain | src/functions/loadTrackType.js:13-18 | the loader's five `replace` links in source order; stated by the `Loader` chain lemmas below |
| TrackLoader.LoaderEngine | src/functions/loadTrackType.js:12-18 | the given type, or the configured engine when that is missing or empty, lower-cased and sent through the chain; stated by `LoaderUsesConfiguredEngine` |
| TrackLoader.LoaderFixed | src/functions/loadTrackType.js:13-18 | a token without `o` and `x` passes through the loader chain unchanged |
| TrackLoader.LoaderKeepsVkMusic | src/functions/loadTrackType.js:13-18 | `vkmusic` has no link in this chain and is kept |
| TrackLoader.LoaderKeepsSearchPrefix | src/functions/loadTrackType.js:13-18 | the search prefixes pass through unchanged |
| TrackLoader.LoaderYoutube | src/functions/loadTrackType.js:14 | `youtube` + rest, where rest holds no `o` or `x`, becomes `ytsearch` + rest |
| TrackLoader.LoaderYoutubeMusic | src/functions/loadTrackType.js:14-18 | `youtubemusic` becomes `ytsearchmusic` |
| TrackLoader.LoaderYandexMusic | src/functions/loadTrackType.js:15 | `yandexmusic` + rest, where rest holds no `o`, becomes `ymsearch` + rest |
| TrackLoader.LoaderSpotify | src/functions/loadTrackType.js:16 | `spotify` + rest, where rest holds no `u`, `x` or `o`, becomes `spsearch` + rest |
| TrackLoader.LoaderSoundcloud | src/functions/loadTrackType.js:17 | `soundcloud` + rest, where rest holds no `y`, `p` or `o`, becomes `scsearch` + rest |
| TrackLoader.LoaderUsesConfiguredEngine | src/functions/loadTrackType.js:12-18 | without a type the configured engine is used; a configured engine with no upper-case letter and no `o` or `x`, such as every search prefix, reaches the search unchanged |
| TrackLoader.Classify | src/functions/loadTrackType.js:28-40 | the `switch` on the load type; stated by `ClassifyTotal` |
| TrackLoader.ClassifyTotal | src/functions/loadTrackType.js:28-40 | the classification is one of four answers; `track`, `playlist` and `search` each come from exactly their load type; everything else, a missing result included, is `error` |
| TrackLoader.LoadStep | src/functions/loadTrackType.js:3-45 | one call: slot, answer and searches; stated by `MissingQueryNoSearch`, `CacheHit`, `CacheMiss`, `SlotTagged` and `RepeatIsHit`, and implemented by the method `LoadTrackType` |
| TrackLoader.MissingQueryNoSearch | src/functions/loadTrackType.js:8-11 | a missing manager or query is reported, with its message, before any search, and the slot is left alone |
| TrackLoader.CacheHit | src/functions/loadTrackType.js:20-22 | a slot tagged with the escaped query is reused: no search, slot kept, stored result classified |
| TrackLoader.CacheMiss | src/functions/loadTrackType.js:12-24 | otherwise exactly one search runs, with the escaped query and the normalised engine; its tagged result replaces the slot, and a falsy result empties it and classifies as `error` |
| TrackLoader.SlotTagged | src/functions/loadTrackType.js:24-40 | after the checks pass, a filled slot carries the escaped query and the answer classifies the slot |
| TrackLoader.RepeatIsHit | src/functions/loadTrackType.js:20-26 | a repeat with the same query, whatever the engine, after a call that filled the slot, searches nothing and answers the same |
| TrackLoader.LoadTrackType | src/functions/loadTrackType.js:3-45 | the new slot, the answer and the searches made are those of the specification `LoadStep` |

## Left out

- The Shoukaku superclass, `Connectors.DiscordJS` and the node transport. Construction is modelled as the option normalisation plus the resolver the transport is given.
- The Manager's client wiring: `client.shoukaku`, `client.queue`, `client.music` with its spread of the options, `loadVoiceEvents` and `LoadCommands`, `Functions`, `Events`, `Queue` and `Utils`. These are external or loaded from disk.
- The event-emitter binding (`this.on`) and `async`/`await`. A firing is one sequential loop, and separate firings do not interleave.
- The script interpreter, `aoiFunc`, `setCode` and `addBrackets` are parameters. `aoiFunc`'s own parse error, returned before the manager check, is not modelled.
- A `$` channel script that throws is not modelled; only the handler invocation itself can throw.
- A search that throws (the awaited `queue.search` rejecting) is not modelled. The call would end there with the slot unchanged and no classification; the `Searcher` parameter returns a result or nothing.
- Handlers that change the registries or the caches while a firing runs are not modelled. The loop reads the registry as it was when the firing began.
- The in-place tag on the search result object is not modelled: the slot holds a tagged copy. Another holder of the same object would also see the `query` field.
- A JavaScript value's shape is reduced to what the code reads:
   - numbers are integers, with no NaN or fractions;
   - `voiceEvent` arguments are a handler or nothing, never a non-object;
   - a handler's `channel` is a string or absent;
   - a cache slot holds a search result or nothing.
- JsValues.Interpolate: writes every integer as its decimal numeral. JavaScript numbers are exact integers only below 2^53 in magnitude, and from 10^21 on `${n}` uses exponent form (`1e+21`). The contract is faithful only below 2^53; for a larger `port` the derived `url` is not one the source produces.
- JsValues.Lower: lower-cases ASCII `A`–`Z` only, because the model has no Unicode case tables.
- Node descriptors that are not objects. A truthy primitive such as `nodes: 5` is destructured without error and gets the url `undefined:undefined`. A `null` or `undefined` entry inside a node list makes the destructuring throw. Descriptors here are always objects, so neither case is expressed.
- `options` passed as `null`: the `= {}` default replaces only `undefined`, so reading `options.nodes` throws a TypeError. Options here are always an object.
- The constructor writes `nodes`, `maxQueueSize`, `maxPlaylistSize`, `debug` and `searchEngine` back into the caller's options object. The model returns them in a new `Config`, so a caller still holding that object and seeing the changed values is not captured.
- The resolver works on the sequence of nodes in iteration order rather than on the transport's map. That it does not change its input holds because it is a function.
