/** The Manager's voice-event registries and what firing an event does with
    them: the sixteen event names, the handlers registered under them, how a
    handler's output channel is chosen, and which handlers run. */
module Handlers {
  import opened Wrappers

  /** The sixteen registries, in the order the Manager creates them. */
  datatype EventTag =
    | TrackStart | TrackEnd | QueueStart | QueueEnd
    | TrackStuck | TrackPaused | TrackResumed
    | NodeConnect | NodeReconnect | NodeDisconnect | NodeError | NodeDestroy | NodeRaw
    | SocketClosed | PlayerCreate | PlayerDestroy

  const AllTags: seq<EventTag> := [
    TrackStart, TrackEnd, QueueStart, QueueEnd,
    TrackStuck, TrackPaused, TrackResumed,
    NodeConnect, NodeReconnect, NodeDisconnect, NodeError, NodeDestroy, NodeRaw,
    SocketClosed, PlayerCreate, PlayerDestroy]

  /** The property name of a registry in the Manager's handler table. */
  function Name(t: EventTag): string
  {
    match t
    case TrackStart => "trackStart"
    case TrackEnd => "trackEnd"
    case QueueStart => "queueStart"
    case QueueEnd => "queueEnd"
    case TrackStuck => "trackStuck"
    case TrackPaused => "trackPaused"
    case TrackResumed => "trackResumed"
    case NodeConnect => "nodeConnect"
    case NodeReconnect => "nodeReconnect"
    case NodeDisconnect => "nodeDisconnect"
    case NodeError => "nodeError"
    case NodeDestroy => "nodeDestroy"
    case NodeRaw => "nodeRaw"
    case SocketClosed => "socketClosed"
    case PlayerCreate => "playerCreate"
    case PlayerDestroy => "playerDestroy"
  }

  /** The registry an event name selects, if it is one of the sixteen. */
  function TagOf(name: string): (r: Option<EventTag>)
    ensures r.Some? ==> Name(r.value) == name
  {
    if name == "trackStart" then Some(TrackStart)
    else if name == "trackEnd" then Some(TrackEnd)
    else if name == "queueStart" then Some(QueueStart)
    else if name == "queueEnd" then Some(QueueEnd)
    else if name == "trackStuck" then Some(TrackStuck)
    else if name == "trackPaused" then Some(TrackPaused)
    else if name == "trackResumed" then Some(TrackResumed)
    else if name == "nodeConnect" then Some(NodeConnect)
    else if name == "nodeReconnect" then Some(NodeReconnect)
    else if name == "nodeDisconnect" then Some(NodeDisconnect)
    else if name == "nodeError" then Some(NodeError)
    else if name == "nodeDestroy" then Some(NodeDestroy)
    else if name == "nodeRaw" then Some(NodeRaw)
    else if name == "socketClosed" then Some(SocketClosed)
    else if name == "playerCreate" then Some(PlayerCreate)
    else if name == "playerDestroy" then Some(PlayerDestroy)
    else None
  }

  /** Every registry is found again under its own name. */
  lemma TagOfName(t: EventTag)
    ensures TagOf(Name(t)) == Some(t)
  {
  }

  /** Distinct registries have distinct names. */
  lemma NameInjective(a: EventTag, b: EventTag)
    requires Name(a) == Name(b)
    ensures a == b
  {
    TagOfName(a);
    TagOfName(b);
  }

  /** Every tag is listed, once. */
  lemma AllTagsComplete()
    ensures |AllTags| == 16
    ensures forall t :: t in AllTags
    ensures forall i, j :: 0 <= i < j < |AllTags| ==> AllTags[i] != AllTags[j]
  {
    forall t
      ensures t in AllTags
    {
      match t
      case TrackStart => assert AllTags[0] == t;
      case TrackEnd => assert AllTags[1] == t;
      case QueueStart => assert AllTags[2] == t;
      case QueueEnd => assert AllTags[3] == t;
      case TrackStuck => assert AllTags[4] == t;
      case TrackPaused => assert AllTags[5] == t;
      case TrackResumed => assert AllTags[6] == t;
      case NodeConnect => assert AllTags[7] == t;
      case NodeReconnect => assert AllTags[8] == t;
      case NodeDisconnect => assert AllTags[9] == t;
      case NodeError => assert AllTags[10] == t;
      case NodeDestroy => assert AllTags[11] == t;
      case NodeRaw => assert AllTags[12] == t;
      case SocketClosed => assert AllTags[13] == t;
      case PlayerCreate => assert AllTags[14] == t;
      case PlayerDestroy => assert AllTags[15] == t;
    }
  }

  /** Names the handler table inherits from `Object.prototype`: looking one of
      them up gives a value that is truthy but has no `set` method. */
  predicate InheritedName(name: string)
  {
    || name == "constructor" || name == "toString" || name == "toLocaleString"
    || name == "valueOf" || name == "hasOwnProperty" || name == "isPrototypeOf"
    || name == "propertyIsEnumerable" || name == "__proto__"
    || name == "__defineGetter__" || name == "__defineSetter__"
    || name == "__lookupGetter__" || name == "__lookupSetter__"
  }

  /** No inherited name is a registry name. */
  lemma InheritedNotRegistry(name: string)
    requires InheritedName(name)
    ensures TagOf(name).None?
  {
  }

  /** A registered handler: its `code`, its optional `channel` and, for a
      handler compiled to a function, that function's identity. */
  datatype Handler = Handler(code: string, channel: Option<string>, compiled: Option<nat>)

  type Registries = map<EventTag, seq<Handler>>

  /** The sixteen registries as the constructor creates them, all empty. */
  function EmptyRegistries(): (r: Registries)
    ensures forall t :: t in r && r[t] == []
  {
    AllTagsComplete();
    map t | t in AllTags :: []
  }

  /** What `voiceEvent` did. */
  datatype Outcome =
    | Chained   // the handler was appended and the manager returned
    | Ignored   // the call returned `undefined` and changed nothing
    | Throws    // `set` is not a function on an inherited property

  /** `voiceEvent(name, evt)`: a missing handler or one with empty `code` is
      ignored, an unknown name is ignored, an inherited name throws, and a
      known name gets the handler appended at index `size`. */
  function Register(regs: Registries, name: string, evt: Option<Handler>): (r: (Registries, Outcome))
  {
    if evt.None? || evt.value.code == "" then (regs, Ignored)
    else match TagOf(name)
      case Some(t) =>
        if t in regs then (regs[t := regs[t] + [evt.value]], Chained)
        else (regs, Ignored)
      case None => (regs, if InheritedName(name) then Throws else Ignored)
  }

  /** The append happens exactly for a present handler with non-empty code
      under a registry name; it grows that registry by one at its end and
      leaves every other registry as it was. Otherwise nothing changes. */
  lemma RegisterSpec(regs: Registries, name: string, evt: Option<Handler>)
    ensures var (r, out) := Register(regs, name, evt);
      && (out == Chained <==> evt.Some? && evt.value.code != "" && TagOf(name).Some? && TagOf(name).value in regs)
      && (out == Throws <==> evt.Some? && evt.value.code != "" && InheritedName(name))
      && (out != Chained ==> r == regs)
      && (out == Chained ==>
            var t := TagOf(name).value;
            && r.Keys == regs.Keys
            && |r[t]| == |regs[t]| + 1
            && r[t][..|regs[t]|] == regs[t]
            && r[t][|regs[t]|] == evt.value
            && forall u :: u in regs && u != t ==> r[u] == regs[u])
  {
    if InheritedName(name) {
      InheritedNotRegistry(name);
    }
    var (r, out) := Register(regs, name, evt);
    if out == Chained {
      var t := TagOf(name).value;
      assert r[t] == regs[t] + [evt.value];
    }
  }

  /** `trackEnd(cmd)` registers into the `trackStart` registry: the
      `trackEnd` registry never grows through it, and a valid handler lands
      at the end of `trackStart`. */
  lemma TrackEndFeedsTrackStart(regs: Registries, cmd: Option<Handler>)
    requires TrackStart in regs && TrackEnd in regs
    ensures Register(regs, Name(TrackStart), cmd).0[TrackEnd] == regs[TrackEnd]
    ensures cmd.Some? && cmd.value.code != "" ==>
      Register(regs, Name(TrackStart), cmd).0[TrackStart] == regs[TrackStart] + [cmd.value]
  {
    TagOfName(TrackStart);
  }

  /** A guild and a channel as the client's caches hold them. */
  datatype Guild = Guild(id: string)
  datatype Channel = Channel(id: string)

  /** The client's guild and channel caches. */
  datatype Env = Env(guilds: map<string, Guild>, channels: map<string, Channel>)

  datatype Player = Player(guildId: Option<string>)
  datatype Dispatcher = Dispatcher(channelId: Option<string>)

  /** The arguments an event is emitted with; the player and the dispatcher
      may be missing, hence the optional chaining in the source. */
  datatype Event = Event(player: Option<Player>, track: string, dispatcher: Option<Dispatcher>)

  /** `cache.get(key)`, where a missing key (`undefined`) finds nothing. */
  function Lookup<V>(m: map<string, V>, key: Option<string>): (r: Option<V>)
    ensures r.Some? <==> key.Some? && key.value in m
    ensures r.Some? ==> r.value == m[key.value]
  {
    if key.Some? && key.value in m then Some(m[key.value]) else None
  }

  /** `a || b` on two cache lookups. */
  function OrElse<V>(a: Option<V>, b: Option<V>): Option<V>
  {
    if a.Some? then a else b
  }

  function GuildIdOf(ev: Event): Option<string>
  {
    if ev.player.Some? then ev.player.value.guildId else None
  }

  /** `dispatcher?.channelId`: where the event came from. */
  function OriginOf(ev: Event): Option<string>
  {
    if ev.dispatcher.Some? then ev.dispatcher.value.channelId else None
  }

  predicate StartsWithDollar(s: string)
  {
    |s| > 0 && s[0] == '$'
  }

  /** The interpreter run on a `$`-prefixed channel: the script, the guild and
      the channel resolved so far, and the event. */
  datatype ScriptCall = ScriptCall(code: string, guild: Option<Guild>, channel: Option<Channel>, event: Event)

  /** The interpreter run on a `$` channel script, reduced to the `code` field of
      its result, if any. */
  type Script = ScriptCall -> Option<string>

  /** The channel a handler gets, case by case:
      a compiled handler gets its channel's lookup, or else the origin's;
      an interpreted handler whose channel starts with `$` gets the lookup of
      what its script evaluates to, or else the origin's;
      any other interpreted handler gets its channel's lookup, or else the origin's. */
  function ResolveChannel(h: Handler, ev: Event, env: Env, script: Script): Option<Channel>
  {
    var literal := Lookup(env.channels, h.channel);
    var origin := Lookup(env.channels, OriginOf(ev));
    if h.compiled.None? && h.channel.Some? && StartsWithDollar(h.channel.value) then
      var guild := Lookup(env.guilds, GuildIdOf(ev));
      var scripted := script(ScriptCall(h.channel.value, guild, OrElse(literal, origin), ev));
      OrElse(Lookup(env.channels, scripted), origin)
    else
      OrElse(literal, origin)
  }

  /** Whatever the handler, a channel the event came from is never lost:
      resolution falls back to it, and finds nothing only when it is missing
      and the handler's own choice finds nothing too. */
  lemma ChannelFallsBackToOrigin(h: Handler, ev: Event, env: Env, script: Script)
    ensures Lookup(env.channels, OriginOf(ev)).Some? ==> ResolveChannel(h, ev, env, script).Some?
    ensures ResolveChannel(h, ev, env, script).None? ==> Lookup(env.channels, OriginOf(ev)).None?
    ensures h.channel.None? ==> ResolveChannel(h, ev, env, script) == Lookup(env.channels, OriginOf(ev))
  {
  }

  /** A handler's own channel wins when it names a cached channel, unless it
      is an interpreted `$` script. */
  lemma LiteralChannelWins(h: Handler, ev: Event, env: Env, script: Script)
    requires h.channel.Some? && h.channel.value in env.channels
    requires h.compiled.Some? || !StartsWithDollar(h.channel.value)
    ensures ResolveChannel(h, ev, env, script) == Some(env.channels[h.channel.value])
  {
  }

  /** Compiled handlers never run the channel script, even when their
      channel starts with `$`: the interpreter does not affect them. */
  lemma CompiledIgnoresScript(h: Handler, ev: Event, env: Env, s1: Script, s2: Script)
    requires h.compiled.Some?
    ensures ResolveChannel(h, ev, env, s1) == ResolveChannel(h, ev, env, s2)
  {
  }

  /** An interpreted `$` handler's channel comes from its script's result
      when that names a cached channel. */
  lemma ScriptChannelWins(h: Handler, ev: Event, env: Env, script: Script)
    requires h.compiled.None? && h.channel.Some? && StartsWithDollar(h.channel.value)
    ensures var literal := Lookup(env.channels, h.channel);
      var origin := Lookup(env.channels, OriginOf(ev));
      var scripted := script(ScriptCall(h.channel.value, Lookup(env.guilds, GuildIdOf(ev)), OrElse(literal, origin), ev));
      scripted.Some? && scripted.value in env.channels ==>
        ResolveChannel(h, ev, env, script) == Some(env.channels[scripted.value])
  {
  }

  /** One handler run: its place in the registry, the handler, and the guild
      and channel it is given. */
  datatype Invocation = Invocation(position: nat, handler: Handler, guild: Option<Guild>, channel: Option<Channel>)

  /** Every handler of the registry, in insertion order, with what it is given. */
  function Plan(handlers: seq<Handler>, ev: Event, env: Env, script: Script): (r: seq<Invocation>)
    ensures |r| == |handlers|
    ensures forall i :: 0 <= i < |r| ==> r[i].position == i && r[i].handler == handlers[i]
  {
    seq(|handlers|, i requires 0 <= i < |handlers| =>
      Invocation(i, handlers[i], Lookup(env.guilds, GuildIdOf(ev)), ResolveChannel(handlers[i], ev, env, script)))
  }

  /** Whether invoking a handler returns normally (`false`: it throws). */
  type Completes = Invocation -> bool

  /** The invocations that actually happen: every one runs in order until the
      first that throws; with no try/catch around the loop, that one ends
      the dispatch and the later handlers never run. */
  function Executed(plan: seq<Invocation>, completes: Completes): (r: seq<Invocation>)
    ensures |r| <= |plan| && r == plan[..|r|]
    ensures plan != [] ==> r != []
    ensures forall i :: 0 <= i < |r| - 1 ==> completes(r[i])
    ensures |r| < |plan| ==> !completes(r[|r| - 1])
  {
    if plan == [] then []
    else if completes(plan[0]) then [plan[0]] + Executed(plan[1..], completes)
    else [plan[0]]
  }

  /** When no handler throws, every handler runs exactly once, in order. */
  lemma {:induction false} ExecutedAllComplete(plan: seq<Invocation>, completes: Completes)
    requires forall i :: 0 <= i < |plan| ==> completes(plan[i])
    ensures Executed(plan, completes) == plan
  {
    if plan != [] {
      ExecutedAllComplete(plan[1..], completes);
    }
  }

  /** A handler that throws is the last to run. */
  lemma {:induction false} ExecutedStopsAtThrow(plan: seq<Invocation>, completes: Completes, k: nat)
    requires k < |plan| && !completes(plan[k])
    requires forall i :: 0 <= i < k ==> completes(plan[i])
    ensures Executed(plan, completes) == plan[..k + 1]
  {
    if k > 0 {
      ExecutedStopsAtThrow(plan[1..], completes, k - 1);
      assert plan[..k + 1] == [plan[0]] + plan[1..][..k];
    }
  }
}
