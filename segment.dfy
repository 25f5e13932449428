/**
 * The gated telemetry client of src/lib/segment/index.ts: a process-wide
 * singleton holding a nullable SDK client and a FIFO queue of deferred
 * callbacks. Calls made before `init` are queued; `init` creates the client
 * and drains the queue in order; a kill switch turns the whole thing off.
 */
module Segment {
  import opened Wrappers

  /** The three tracking operations a callback can perform on the SDK client. */
  datatype Call =
    | Identify(userId: Option<string>, traits: map<string, string>)
    | Screen(name: string, properties: map<string, string>)
    | Track(event: string, properties: map<string, string>)

  datatype Plugin = AppsflyerPlugin | IdfaPlugin

  /** What `createClient` is given, plus the plugins attached afterwards. */
  datatype SegmentClient = SegmentClient(
    writeKey: string,
    debug: bool,
    trackAppLifecycleEvents: bool,
    plugins: seq<Plugin>)

  /** Build-time constants the module reads: the kill switch, the platform, the write key, `__DEV__`. */
  datatype Config = Config(analyticsEnabled: bool, isIOS: bool, writeKey: string, dev: bool)

  /** How the SDK's promise for one call settles. */
  datatype Reply = Resolved | Rejected

  /** What `guard` hands back: an already-resolved void promise, or the callback's own promise. */
  datatype GuardResult = ResolvedVoid | Forwarded(reply: Reply)

  /**
   * The module's observable state: the client (null until `init`), the queue
   * of deferred callbacks, and the calls the SDK has received so far, in order.
   */
  datatype Gate = Gate(client: Option<SegmentClient>, queue: seq<Call>, sent: seq<Call>)

  const Fresh: Gate := Gate(None, [], [])

  /** `_addPluginsToClient`: Appsflyer always, IDFA on iOS only. */
  function AddPlugins(client: SegmentClient, isIOS: bool): (c: SegmentClient)
    ensures c.writeKey == client.writeKey && c.debug == client.debug
    ensures c.trackAppLifecycleEvents == client.trackAppLifecycleEvents
    ensures AppsflyerPlugin in c.plugins
    ensures IdfaPlugin in c.plugins <==> IdfaPlugin in client.plugins || isIOS
  {
    client.(plugins := client.plugins + [AppsflyerPlugin] + (if isIOS then [IdfaPlugin] else []))
  }

  /** The client `init` creates: the configured SDK with its plugins attached. */
  function NewClient(config: Config): SegmentClient {
    AddPlugins(SegmentClient(config.writeKey, config.dev, true, []), config.isIOS)
  }

  /** Specification of `guard(cb)`: drop, enqueue at the tail, or run now. */
  function GuardStep(config: Config, g: Gate, cb: Call): Gate {
    if !config.analyticsEnabled then g
    else if g.client.None? then g.(queue := g.queue + [cb])
    else g.(sent := g.sent + [cb])
  }

  /** Specification of `init()`: create the client once, then run every queued callback in order. */
  function InitStep(config: Config, g: Gate): Gate {
    if !config.analyticsEnabled || g.client.Some? then g
    else Gate(Some(NewClient(config)), [], g.sent + g.queue)
  }

  /** One thing a caller can do to the module. */
  datatype Event = Invoke(call: Call) | Init

  /** The state after a sequence of events, applied oldest first. */
  function Run(config: Config, g: Gate, evs: seq<Event>): Gate
    decreases |evs|
  {
    if evs == [] then g
    else
      var last := evs[|evs| - 1];
      var before := Run(config, g, evs[..|evs| - 1]);
      if last.Init? then InitStep(config, before) else GuardStep(config, before, last.call)
  }

  /** The calls carried by a sequence of events, in submission order. */
  function Calls(evs: seq<Event>): (cs: seq<Call>)
    ensures |cs| <= |evs|
    decreases |evs|
  {
    if evs == [] then []
    else
      var last := evs[|evs| - 1];
      Calls(evs[..|evs| - 1]) + (if last.Invoke? then [last.call] else [])
  }

  predicate HasInit(evs: seq<Event>) {
    exists k :: 0 <= k < |evs| && evs[k].Init?
  }

  /** With analytics disabled nothing is queued, no client is created and the SDK receives nothing. */
  lemma {:induction false} KillSwitch(config: Config, g: Gate, evs: seq<Event>)
    requires !config.analyticsEnabled
    ensures Run(config, g, evs) == g
    decreases |evs|
  {
    if evs != [] {
      KillSwitch(config, g, evs[..|evs| - 1]);
    }
  }

  /**
   * Starting from the fresh module with analytics enabled: before any `init`
   * every call sits in the queue, in submission order, and none has run; after
   * an `init` the queue is empty and the SDK has received every call exactly
   * once, in submission order.
   */
  lemma {:induction false} RunFromFresh(config: Config, evs: seq<Event>)
    requires config.analyticsEnabled
    ensures var g := Run(config, Fresh, evs);
      if HasInit(evs) then
        g.client == Some(NewClient(config)) && g.queue == [] && g.sent == Calls(evs)
      else
        g.client.None? && g.queue == Calls(evs) && g.sent == []
    decreases |evs|
  {
    if evs != [] {
      var front := evs[..|evs| - 1];
      var last := evs[|evs| - 1];
      RunFromFresh(config, front);
      if HasInit(evs) && !last.Init? {
        var k :| 0 <= k < |evs| && evs[k].Init?;
        assert front[k].Init?;
      }
      if HasInit(front) {
        var k :| 0 <= k < |front| && front[k].Init?;
        assert evs[k].Init?;
      }
    }
  }

  /** Once the client exists it is never replaced or reset, and nothing more is queued. */
  lemma {:induction false} ClientIsPermanent(config: Config, g: Gate, evs: seq<Event>)
    requires g.client.Some?
    ensures Run(config, g, evs).client == g.client
    ensures Run(config, g, evs).queue == g.queue
    decreases |evs|
  {
    if evs != [] {
      ClientIsPermanent(config, g, evs[..|evs| - 1]);
    }
  }

  /** `init` is idempotent: a second call changes nothing, so the drain happens at most once. */
  lemma InitIdempotent(config: Config, g: Gate)
    ensures InitStep(config, InitStep(config, g)) == InitStep(config, g)
  {
  }

  /** The module's singleton, with its two mutable fields and the SDK's record of received calls. */
  class Analytics {
    const config: Config
    var client: Option<SegmentClient>
    var queue: seq<Call>
    var sent: seq<Call>

    function State(): Gate
      reads this
    {
      Gate(client, queue, sent)
    }

    /** The queue only ever holds calls made while there was no client; disabled analytics touch nothing. */
    ghost predicate Valid()
      reads this
    {
      && (client.Some? ==> queue == [])
      && (!config.analyticsEnabled ==> State() == Fresh)
    }

    constructor (config: Config)
      ensures Valid() && this.config == config && State() == Fresh
    {
      this.config := config;
      client := None;
      queue := [];
      sent := [];
    }

    /** `getClient`: the client, or null before `init`. */
    method GetClient() returns (c: Option<SegmentClient>)
      ensures c == client
    {
      c := client;
    }

    /** `guard(cb)`; `respond` is how the SDK settles the call if it runs now. */
    method Guard(cb: Call, respond: Call -> Reply) returns (r: GuardResult)
      requires Valid()
      modifies this
      ensures Valid()
      ensures State() == GuardStep(config, old(State()), cb)
      ensures r == if config.analyticsEnabled && old(client).Some? then Forwarded(respond(cb)) else ResolvedVoid
    {
      if !config.analyticsEnabled {
        return ResolvedVoid;
      }
      if client.None? {
        queue := queue + [cb];
        return ResolvedVoid;
      }
      sent := sent + [cb];
      r := Forwarded(respond(cb));
    }

    /** `init()`: create the client with its plugins, then drain the queue head first, ignoring rejections. */
    method Init(respond: Call -> Reply)
      requires Valid()
      modifies this
      ensures Valid()
      ensures State() == InitStep(config, old(State()))
    {
      if !config.analyticsEnabled {
        return;
      }
      if client.Some? {
        return;
      }
      client := Some(SegmentClient(config.writeKey, config.dev, true, []));
      client := Some(AddPlugins(client.value, config.isIOS));
      while queue != []
        invariant client == Some(NewClient(config))
        invariant sent + queue == old(sent) + old(queue)
        decreases |queue|
      {
        var fn := queue[0];
        queue := queue[1..];
        var reply := respond(fn);  // a rejection is caught and discarded
        sent := sent + [fn];
      }
    }

    /** `identify`: the call goes through `guard`, whose promise is returned. */
    method Identify(userId: Option<string>, traits: map<string, string>, respond: Call -> Reply)
      returns (r: GuardResult)
      requires Valid()
      modifies this
      ensures Valid()
      ensures State() == GuardStep(config, old(State()), Call.Identify(userId, traits))
      ensures r == if config.analyticsEnabled && old(client).Some? then Forwarded(respond(Call.Identify(userId, traits))) else ResolvedVoid
    {
      r := Guard(Call.Identify(userId, traits), respond);
    }

    /** `screen`: the call goes through `guard`, whose promise is returned. */
    method Screen(name: string, properties: map<string, string>, respond: Call -> Reply)
      returns (r: GuardResult)
      requires Valid()
      modifies this
      ensures Valid()
      ensures State() == GuardStep(config, old(State()), Call.Screen(name, properties))
      ensures r == if config.analyticsEnabled && old(client).Some? then Forwarded(respond(Call.Screen(name, properties))) else ResolvedVoid
    {
      r := Guard(Call.Screen(name, properties), respond);
    }

    /** `track`: the call goes through `guard`, whose promise is returned. */
    method Track(event: string, properties: map<string, string>, respond: Call -> Reply)
      returns (r: GuardResult)
      requires Valid()
      modifies this
      ensures Valid()
      ensures State() == GuardStep(config, old(State()), Call.Track(event, properties))
      ensures r == if config.analyticsEnabled && old(client).Some? then Forwarded(respond(Call.Track(event, properties))) else ResolvedVoid
    {
      r := Guard(Call.Track(event, properties), respond);
    }
  }
}
