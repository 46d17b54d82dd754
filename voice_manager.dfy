/** The Manager object: its normalised configuration, its sixteen handler
    registries, registration through `voiceEvent` and the convenience
    methods, and the dispatch loop bound to every registry. */
module VoiceManager {
  import opened Wrappers
  import opened ManagerOptions
  import opened Handlers

  class Manager {
    const config: Config
    var registries: Registries

    /** Every registry the constructor creates is still there, so each
        listener, bound to one of these keys, finds its registry. */
    predicate Valid()
      reads this
    {
      forall t :: t in registries
    }

    constructor (config: Config)
      ensures this.config == config
      ensures registries == EmptyRegistries()
      ensures Valid()
    {
      this.config := config;
      registries := EmptyRegistries();
    }

    /** `new Manager(client, options)`: the option checks and defaults, then
        sixteen empty registries. */
    static method Create(hasClient: bool, options: RawOptions) returns (r: Result<Manager, ConfigError>)
      ensures Normalize(hasClient, options).Err? ==> r == Err(Normalize(hasClient, options).error)
      ensures Normalize(hasClient, options).Ok? ==>
        && r.Ok? && fresh(r.value) && r.value.Valid()
        && r.value.config == Normalize(hasClient, options).value
        && r.value.registries == EmptyRegistries()
    {
      var c := Normalize(hasClient, options);
      if c.Err? {
        return Err(c.error);
      }
      var m := new Manager(c.value);
      return Ok(m);
    }

    /** `voiceEvent(name, evt)`. */
    method VoiceEvent(name: string, evt: Option<Handler>) returns (out: Outcome)
      modifies this
      ensures (registries, out) == Register(old(registries), name, evt)
      ensures old(Valid()) ==> Valid()
    {
      if evt.None? || evt.value.code == "" {
        return Ignored;
      }
      var tag := TagOf(name);
      if tag.None? {
        return if InheritedName(name) then Throws else Ignored;
      }
      if tag.value !in registries {
        return Ignored;
      }
      var cmd := registries[tag.value];
      registries := registries[tag.value := cmd + [evt.value]];
      return Chained;
    }

    method TrackStart(cmd: Option<Handler>)
      modifies this
      ensures registries == Register(old(registries), "trackStart", cmd).0
      ensures old(Valid()) ==> Valid()
    {
      var _ := VoiceEvent("trackStart", cmd);
    }

    /** Registers into `trackStart`, as the source does. */
    method TrackEnd(cmd: Option<Handler>)
      modifies this
      ensures registries == Register(old(registries), "trackStart", cmd).0
      ensures old(Valid()) ==> Valid()
    {
      var _ := VoiceEvent("trackStart", cmd);
    }

    method QueueStart(cmd: Option<Handler>)
      modifies this
      ensures registries == Register(old(registries), "queueStart", cmd).0
      ensures old(Valid()) ==> Valid()
    {
      var _ := VoiceEvent("queueStart", cmd);
    }

    method QueueEnd(cmd: Option<Handler>)
      modifies this
      ensures registries == Register(old(registries), "queueEnd", cmd).0
      ensures old(Valid()) ==> Valid()
    {
      var _ := VoiceEvent("queueEnd", cmd);
    }

    method TrackStuck(cmd: Option<Handler>)
      modifies this
      ensures registries == Register(old(registries), "trackStuck", cmd).0
      ensures old(Valid()) ==> Valid()
    {
      var _ := VoiceEvent("trackStuck", cmd);
    }

    method TrackPaused(cmd: Option<Handler>)
      modifies this
      ensures registries == Register(old(registries), "trackPaused", cmd).0
      ensures old(Valid()) ==> Valid()
    {
      var _ := VoiceEvent("trackPaused", cmd);
    }

    method TrackResumed(cmd: Option<Handler>)
      modifies this
      ensures registries == Register(old(registries), "trackResumed", cmd).0
      ensures old(Valid()) ==> Valid()
    {
      var _ := VoiceEvent("trackResumed", cmd);
    }

    method NodeConnect(cmd: Option<Handler>)
      modifies this
      ensures registries == Register(old(registries), "nodeConnect", cmd).0
      ensures old(Valid()) ==> Valid()
    {
      var _ := VoiceEvent("nodeConnect", cmd);
    }

    method NodeReconnect(cmd: Option<Handler>)
      modifies this
      ensures registries == Register(old(registries), "nodeReconnect", cmd).0
      ensures old(Valid()) ==> Valid()
    {
      var _ := VoiceEvent("nodeReconnect", cmd);
    }

    method NodeDisconnect(cmd: Option<Handler>)
      modifies this
      ensures registries == Register(old(registries), "nodeDisconnect", cmd).0
      ensures old(Valid()) ==> Valid()
    {
      var _ := VoiceEvent("nodeDisconnect", cmd);
    }

    method NodeError(cmd: Option<Handler>)
      modifies this
      ensures registries == Register(old(registries), "nodeError", cmd).0
      ensures old(Valid()) ==> Valid()
    {
      var _ := VoiceEvent("nodeError", cmd);
    }

    method NodeDestroy(cmd: Option<Handler>)
      modifies this
      ensures registries == Register(old(registries), "nodeDestroy", cmd).0
      ensures old(Valid()) ==> Valid()
    {
      var _ := VoiceEvent("nodeDestroy", cmd);
    }

    method NodeRaw(cmd: Option<Handler>)
      modifies this
      ensures registries == Register(old(registries), "nodeRaw", cmd).0
      ensures old(Valid()) ==> Valid()
    {
      var _ := VoiceEvent("nodeRaw", cmd);
    }

    method SocketClosed(cmd: Option<Handler>)
      modifies this
      ensures registries == Register(old(registries), "socketClosed", cmd).0
      ensures old(Valid()) ==> Valid()
    {
      var _ := VoiceEvent("socketClosed", cmd);
    }

    method PlayerCreate(cmd: Option<Handler>)
      modifies this
      ensures registries == Register(old(registries), "playerCreate", cmd).0
      ensures old(Valid()) ==> Valid()
    {
      var _ := VoiceEvent("playerCreate", cmd);
    }

    method PlayerDestroy(cmd: Option<Handler>)
      modifies this
      ensures registries == Register(old(registries), "playerDestroy", cmd).0
      ensures old(Valid()) ==> Valid()
    {
      var _ := VoiceEvent("playerDestroy", cmd);
    }

    /** The channel `#bindEvents` hands one handler, computed the way the
        source does: the literal lookup or the origin, then, for an
        interpreted handler, the script's channel for a `$` channel, and
        the origin again if nothing was found. */
    static method ChannelFor(cmd: Handler, ev: Event, env: Env, script: Script)
      returns (channel: Option<Channel>)
      ensures channel == ResolveChannel(cmd, ev, env, script)
    {
      var guild := Lookup(env.guilds, GuildIdOf(ev));
      channel := OrElse(Lookup(env.channels, cmd.channel), Lookup(env.channels, OriginOf(ev)));
      if cmd.compiled.None? {
        if cmd.channel.Some? && StartsWithDollar(cmd.channel.value) {
          channel := Lookup(env.channels, script(ScriptCall(cmd.channel.value, guild, channel, ev)));
        }
        if channel.None? {
          channel := Lookup(env.channels, OriginOf(ev));
        }
      }
    }

    /** The listener bound to event `tag`: for each handler in insertion
        order, look up the guild, work out the channel, and invoke the
        handler; an invocation that throws ends the loop. */
    method Dispatch(tag: EventTag, ev: Event, env: Env, script: Script, completes: Completes)
      returns (trace: seq<Invocation>)
      requires Valid()
      ensures trace == Executed(Plan(registries[tag], ev, env, script), completes)
    {
      var commands := registries[tag];
      ghost var plan := Plan(commands, ev, env, script);
      trace := [];
      var i := 0;
      while i < |commands|
        invariant 0 <= i <= |commands|
        invariant trace == plan[..i]
        invariant forall k :: 0 <= k < i ==> completes(plan[k])
      {
        var cmd := commands[i];
        var guild := Lookup(env.guilds, GuildIdOf(ev));
        var channel := ChannelFor(cmd, ev, env, script);
        var invocation := Invocation(i, cmd, guild, channel);
        assert invocation == plan[i];
        trace := trace + [invocation];
        if !completes(invocation) {
          ExecutedStopsAtThrow(plan, completes, i);
          return;
        }
        i := i + 1;
      }
      ExecutedAllComplete(plan, completes);
    }
  }
}
