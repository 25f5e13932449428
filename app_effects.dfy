/**
 * The app-level effects of src/store/app/app.effects.ts: the bootstrap
 * sequence `startAppInit`, the identity check it starts with, the API
 * binding, and the rule for showing the ongoing-process modal.
 *
 * The store is a class holding the APP slice, the BitPay ID API tokens and a
 * trace of everything the effects do, in order: the actions they dispatch and
 * the calls they make into code outside this model (API clients, other store
 * slices, native modules). Whether such a call throws is given by an `Env`.
 */
module AppEffects {
  import opened Wrappers
  import opened AppReducer

  /** What `UserApi.fetchAllUserData` answers. */
  datatype UserData = UserData(basicInfo: string, cards: seq<string>)

  datatype ApiClient = BitPayApi | GraphQlApi

  /** The calls the effects make outside the APP slice. */
  datatype Call =
    | ApiInit(api: ApiClient, network: Network, identity: Option<AppIdentity>)
    | StartWalletStoreInit
    | FetchAllUserData(token: string)
    | StartBitPayIdStoreInit(network: Network, user: string)
    | StartCardStoreInit(network: Network, cards: seq<string>)
    | InitializeDosh
    | HideSplash

  datatype Event = Dispatched(action: AppAction) | Invoked(call: Call)

  /**
   * The outside world for one run: what `BitAuth.generateSin` returns (None:
   * it throws), what the user-data fetch returns, and which calls throw.
   */
  datatype Env = Env(sin: Option<AppIdentity>, userData: UserData, throws: Call -> bool)

  /**
   * Whether an event raises inside `startAppInit`'s `try`. Dispatches do not;
   * the splash `hide` promise is not awaited, so its failure is never caught there.
   */
  predicate Throws(env: Env, e: Event) {
    e.Invoked? && !e.call.HideSplash? && env.throws(e.call)
  }

  /** The APP slice after the dispatched events of a trace, oldest first. */
  function Apply(s: AppState, evs: seq<Event>): AppState
    decreases |evs|
  {
    if evs == [] then s
    else
      var last := evs[|evs| - 1];
      var before := Apply(s, evs[..|evs| - 1]);
      if last.Dispatched? then Reduce(before, last.action) else before
  }

  lemma {:induction false} ApplyAppend(s: AppState, a: seq<Event>, b: seq<Event>)
    ensures Apply(s, a + b) == Apply(Apply(s, a), b)
    decreases |b|
  {
    if b == [] {
      assert a + b == a;
    } else {
      assert (a + b)[..|a + b| - 1] == a + b[..|b| - 1];
      ApplyAppend(s, a, b[..|b| - 1]);
    }
  }

  /** `!!apiToken[network]`: a pairing token exists and is non-empty. */
  predicate Paired(token: Option<string>) {
    token.Some? && token.value != ""
  }

  function TokenFor(apiToken: map<Network, string>, network: Network): Option<string> {
    if network in apiToken then Some(apiToken[network]) else None
  }

  /** The identity `initializeAppIdentity` returns: the stored one if usable, else a fresh one, else the stored one. */
  function EnsuredIdentity(s: AppState, sin: Option<AppIdentity>): Option<AppIdentity> {
    var stored := StoredIdentity(s, s.network);
    if Usable(stored) then stored
    else if sin.Some? then sin
    else stored
  }

  /** The actions `initializeAppIdentity` dispatches. */
  function IdentityEvents(s: AppState, sin: Option<AppIdentity>): seq<Event> {
    if Usable(StoredIdentity(s, s.network)) then []
    else if sin.Some? then [Dispatched(SuccessGenerateAppIdentity(s.network, sin.value))]
    else [Dispatched(FailedGenerateAppIdentity)]
  }

  /** The steps `startAppInit` runs after `isPaired`, ending with `after`. */
  function PairedSteps(network: Network, token: Option<string>, user: UserData, after: seq<Event>): seq<Event> {
    if Paired(token) then
      [Invoked(FetchAllUserData(token.value))]
      + ([Invoked(StartBitPayIdStoreInit(network, user.basicInfo))]
      + ([Invoked(StartCardStoreInit(network, user.cards))] + after))
    else after
  }

  /** The steps of `startAppInit` after the identity check, in the order its `try` block runs them. */
  function Planned(network: Network, token: Option<string>, identity: Option<AppIdentity>, user: UserData): seq<Event> {
    [Invoked(ApiInit(BitPayApi, network, identity))]
    + ([Invoked(ApiInit(GraphQlApi, network, identity))]
    + ([Invoked(StartWalletStoreInit)]
    + PairedSteps(network, token, user,
        [Invoked(InitializeDosh)] + ([Dispatched(SuccessAppInit)] + [Invoked(HideSplash)]))))
  }

  /** A `try` over a list of steps: run them in order; the first that throws ends the run with `failedAppInit`. */
  function Attempt(steps: seq<Event>, env: Env): seq<Event>
    decreases |steps|
  {
    if steps == [] then []
    else if Throws(env, steps[0]) then [steps[0], Dispatched(FailedAppInit)]
    else [steps[0]] + Attempt(steps[1..], env)
  }

  /** Everything `startAppInit` does, from the state it starts in. */
  function AppInitEvents(s: AppState, apiToken: map<Network, string>, env: Env): seq<Event> {
    var identity := EnsuredIdentity(s, env.sin);
    IdentityEvents(s, env.sin)
      + Attempt(Planned(s.network, TokenFor(apiToken, s.network), identity, env.userData), env)
  }

  predicate NoneThrow(env: Env, steps: seq<Event>) {
    forall k :: 0 <= k < |steps| ==> !Throws(env, steps[k])
  }

  /** The index of the first step that throws, or the number of steps when none does. */
  function FirstThrow(steps: seq<Event>, env: Env): (i: nat)
    ensures i <= |steps| && NoneThrow(env, steps[..i])
    ensures i < |steps| ==> Throws(env, steps[i])
    decreases |steps|
  {
    if steps == [] then 0
    else if Throws(env, steps[0]) then 0
    else
      var i := 1 + FirstThrow(steps[1..], env);
      assert forall k :: 1 <= k < i ==> steps[..i][k] == steps[1..][..i - 1][k - 1];
      i
  }

  /**
   * The shape of an attempt: all the steps when none throws; otherwise the
   * steps up to and including the first that throws, then `failedAppInit`.
   */
  lemma {:induction false} AttemptShape(steps: seq<Event>, env: Env)
    ensures var i := FirstThrow(steps, env);
      Attempt(steps, env) == if i == |steps| then steps else steps[..i + 1] + [Dispatched(FailedAppInit)]
    decreases |steps|
  {
    if steps != [] && !Throws(env, steps[0]) {
      AttemptShape(steps[1..], env);
      var j := FirstThrow(steps[1..], env);
      if j < |steps| - 1 {
        assert steps[..j + 2] == [steps[0]] + steps[1..][..j + 1];
      } else {
        assert steps == [steps[0]] + steps[1..];
      }
    }
  }

  /** The planned steps of a run, given its starting state. */
  function PlanOf(s: AppState, apiToken: map<Network, string>, env: Env): seq<Event> {
    Planned(s.network, TokenFor(apiToken, s.network), EnsuredIdentity(s, env.sin), env.userData)
  }

  /** A plan that ends by reporting success and hiding the splash screen, with only fallible calls before. */
  predicate EndsWithSuccess(plan: seq<Event>) {
    && |plan| >= 2
    && plan[|plan| - 2] == Dispatched(SuccessAppInit)
    && plan[|plan| - 1] == Invoked(HideSplash)
    && forall k :: 0 <= k < |plan| - 2 ==> plan[k].Invoked? && !plan[k].call.HideSplash?
  }

  /** The steps `startAppInit` plans: three setup calls, the paired block if any, then Dosh, success, splash. */
  lemma PlanParts(s: AppState, apiToken: map<Network, string>, env: Env)
    ensures var plan := PlanOf(s, apiToken, env);
      var network, token := s.network, TokenFor(apiToken, s.network);
      var identity := EnsuredIdentity(s, env.sin);
      plan ==
        [Invoked(ApiInit(BitPayApi, network, identity)), Invoked(ApiInit(GraphQlApi, network, identity)),
         Invoked(StartWalletStoreInit)]
        + PairedSteps(network, token, env.userData, [])
        + [Invoked(InitializeDosh), Dispatched(SuccessAppInit), Invoked(HideSplash)]
  {
  }

  /** The plan ends in success, and the paired block's steps are in it only with a token. */
  lemma PlanFacts(s: AppState, apiToken: map<Network, string>, env: Env)
    ensures var plan := PlanOf(s, apiToken, env);
      var token := TokenFor(apiToken, s.network);
      && EndsWithSuccess(plan)
      && Dispatched(FailedAppInit) !in plan
      && (forall e :: e in plan && PairedStep(e) ==> Paired(token))
      && (forall e :: e in plan && e.Invoked? && e.call.FetchAllUserData? ==> e.call.token == token.value)
      && (Paired(token) ==> plan[3] == Invoked(FetchAllUserData(token.value)))
  {
    PlanParts(s, apiToken, env);
  }

  /**
   * An attempt at a plan ending in success reports success, and hides the
   * splash screen, exactly when no step throws; it reports failure exactly
   * when one does; it performs only planned steps, and never one after a throw.
   */
  lemma AttemptOutcome(plan: seq<Event>, env: Env)
    requires EndsWithSuccess(plan) && Dispatched(FailedAppInit) !in plan
    ensures var att := Attempt(plan, env);
      var ok := NoneThrow(env, plan);
      && (Dispatched(SuccessAppInit) in att <==> ok)
      && (Invoked(HideSplash) in att <==> ok)
      && (Dispatched(FailedAppInit) in att <==> !ok)
      && (forall e :: e in att ==> e in plan || e == Dispatched(FailedAppInit))
  {
    AttemptShape(plan, env);
    var i := FirstThrow(plan, env);
    if i < |plan| {
      AttemptThrown(plan, env, i);
    } else {
      assert plan[..i] == plan;
    }
  }

  /** The failing half of `AttemptOutcome`: a throw stops the plan before success and splash. */
  lemma AttemptThrown(plan: seq<Event>, env: Env, i: nat)
    requires EndsWithSuccess(plan) && Dispatched(FailedAppInit) !in plan
    requires i < |plan| && Throws(env, plan[i])
    ensures var att := plan[..i + 1] + [Dispatched(FailedAppInit)];
      && Dispatched(SuccessAppInit) !in att
      && Invoked(HideSplash) !in att
      && Dispatched(FailedAppInit) in att
      && (forall e :: e in att ==> e in plan || e == Dispatched(FailedAppInit))
  {
    var n := |plan|;
    assert !Throws(env, plan[n - 2]) && !Throws(env, plan[n - 1]);
    assert i < n - 2;
    var att := plan[..i + 1] + [Dispatched(FailedAppInit)];
    assert forall k :: 0 <= k < |att| - 1 ==> att[k] == plan[k];
    assert forall e :: e in att ==> (e.Invoked? && !e.call.HideSplash?) || e == Dispatched(FailedAppInit);
  }

  /** The identity check dispatches only identity actions. */
  lemma IdentityEventsAreIdentityActions(s: AppState, sin: Option<AppIdentity>)
    ensures forall e :: e in IdentityEvents(s, sin) ==>
      e.Dispatched? && (e.action.SuccessGenerateAppIdentity? || e.action.FailedGenerateAppIdentity?)
  {
  }

  /**
   * A run reports `successAppInit`, and hides the splash screen, exactly when
   * no step throws; it reports `failedAppInit` exactly when one does; never both.
   */
  lemma AppInitOutcome(s: AppState, apiToken: map<Network, string>, env: Env)
    ensures var evs := AppInitEvents(s, apiToken, env);
      var ok := NoneThrow(env, PlanOf(s, apiToken, env));
      && (Dispatched(SuccessAppInit) in evs <==> ok)
      && (Invoked(HideSplash) in evs <==> ok)
      && (Dispatched(FailedAppInit) in evs <==> !ok)
  {
    PlanFacts(s, apiToken, env);
    AttemptOutcome(PlanOf(s, apiToken, env), env);
    IdentityEventsAreIdentityActions(s, env.sin);
  }

  /** Predicate: the event belongs to the paired-account block. */
  predicate PairedStep(e: Event) {
    e.Invoked? && (e.call.FetchAllUserData? || e.call.StartBitPayIdStoreInit? || e.call.StartCardStoreInit?)
  }

  /** A step whose predecessors all succeed is attempted. */
  lemma AttemptReaches(plan: seq<Event>, env: Env, j: nat)
    requires j < |plan| && NoneThrow(env, plan[..j])
    ensures plan[j] in Attempt(plan, env)
  {
    AttemptShape(plan, env);
    var i := FirstThrow(plan, env);
    assert Attempt(plan, env)[j] == plan[j];
  }

  /** The first step that throws ends the attempt right after it, with the failure action. */
  lemma AttemptFailsAt(plan: seq<Event>, env: Env, j: nat)
    requires j < |plan| && NoneThrow(env, plan[..j]) && Throws(env, plan[j])
    ensures Attempt(plan, env) == plan[..j + 1] + [Dispatched(FailedAppInit)]
  {
    AttemptShape(plan, env);
    var i := FirstThrow(plan, env);
  }

  /** The paired-account block runs only when the network has a pairing token, and then with that token. */
  lemma PairedStepsNeedToken(s: AppState, apiToken: map<Network, string>, env: Env)
    ensures var evs := AppInitEvents(s, apiToken, env);
      var token := TokenFor(apiToken, s.network);
      && (forall e :: e in evs && PairedStep(e) ==> Paired(token))
      && (forall e :: e in evs && e.Invoked? && e.call.FetchAllUserData? ==> e.call.token == token.value)
  {
    var plan := PlanOf(s, apiToken, env);
    PlanFacts(s, apiToken, env);
    AttemptOutcome(plan, env);
    IdentityEventsAreIdentityActions(s, env.sin);
  }

  /** With a token, and the API and wallet-store steps not throwing, the fetch is attempted. */
  lemma TokenStartsFetch(s: AppState, apiToken: map<Network, string>, env: Env)
    requires Paired(TokenFor(apiToken, s.network))
    requires NoneThrow(env, PlanOf(s, apiToken, env)[..3])
    ensures Invoked(FetchAllUserData(TokenFor(apiToken, s.network).value)) in AppInitEvents(s, apiToken, env)
  {
    var plan := PlanOf(s, apiToken, env);
    PlanFacts(s, apiToken, env);
    AttemptReaches(plan, env, 3);
  }

  /** A failing paired-account fetch is fatal: nothing after it runs and the run fails. */
  lemma FetchFailureIsFatal(s: AppState, apiToken: map<Network, string>, env: Env)
    requires Paired(TokenFor(apiToken, s.network))
    requires var plan := PlanOf(s, apiToken, env);
      NoneThrow(env, plan[..3]) && Throws(env, plan[3])
    ensures var plan := PlanOf(s, apiToken, env);
      AppInitEvents(s, apiToken, env) == IdentityEvents(s, env.sin) + plan[..4] + [Dispatched(FailedAppInit)]
    ensures Invoked(InitializeDosh) !in AppInitEvents(s, apiToken, env)
  {
    var plan := PlanOf(s, apiToken, env);
    PlanParts(s, apiToken, env);
    AttemptFailsAt(plan, env, 3);
    IdentityEventsAreIdentityActions(s, env.sin);
    var network, identity := s.network, EnsuredIdentity(s, env.sin);
    assert plan[..4] == [Invoked(ApiInit(BitPayApi, network, identity)), Invoked(ApiInit(GraphQlApi, network, identity)),
                         Invoked(StartWalletStoreInit), Invoked(FetchAllUserData(TokenFor(apiToken, s.network).value))];
  }

  /** Only the app's own success and failure actions: these leave identities and the network alone. */
  lemma {:induction false} InitActionsKeepIdentity(s: AppState, evs: seq<Event>)
    requires forall e :: e in evs && e.Dispatched? ==> e.action == SuccessAppInit || e.action == FailedAppInit
    ensures Apply(s, evs).identity == s.identity && Apply(s, evs).network == s.network
    decreases |evs|
  {
    if evs != [] {
      var front := evs[..|evs| - 1];
      assert forall e :: e in front ==> e in evs;
      InitActionsKeepIdentity(s, front);
    }
  }

  /**
   * The identity is generated at most once per network: after a run that kept
   * a usable identity or generated a usable one, the next run generates none
   * and uses the same identity.
   */
  lemma IdentityGeneratedOnce(s: AppState, apiToken: map<Network, string>, env: Env, next: Option<AppIdentity>)
    requires Usable(StoredIdentity(s, s.network)) || Usable(env.sin)
    ensures var s1 := Apply(s, AppInitEvents(s, apiToken, env));
      && IdentityEvents(s1, next) == []
      && EnsuredIdentity(s1, next) == EnsuredIdentity(s, env.sin)
  {
    var s0 := Apply(s, IdentityEvents(s, env.sin));
    var s1 := Apply(s, AppInitEvents(s, apiToken, env));
    RunKeepsIdentity(s, apiToken, env);
    IdentityStored(s, env.sin);
    assert StoredIdentity(s1, s1.network) == StoredIdentity(s0, s0.network);
  }

  /** After the identity check, the rest of a run leaves identities and the network as the check left them. */
  lemma RunKeepsIdentity(s: AppState, apiToken: map<Network, string>, env: Env)
    ensures var s0 := Apply(s, IdentityEvents(s, env.sin));
      var s1 := Apply(s, AppInitEvents(s, apiToken, env));
      s1.identity == s0.identity && s1.network == s0.network
  {
    var head := IdentityEvents(s, env.sin);
    var plan := PlanOf(s, apiToken, env);
    var att := Attempt(plan, env);
    assert AppInitEvents(s, apiToken, env) == head + att;
    ApplyAppend(s, head, att);
    PlanFacts(s, apiToken, env);
    AttemptDispatchesInitActions(plan, env);
    InitActionsKeepIdentity(Apply(s, head), att);
  }

  /** An attempt at a plan ending in success dispatches only `successAppInit` and `failedAppInit`. */
  lemma AttemptDispatchesInitActions(plan: seq<Event>, env: Env)
    requires EndsWithSuccess(plan) && Dispatched(FailedAppInit) !in plan
    ensures forall e :: e in Attempt(plan, env) && e.Dispatched? ==>
      e.action == SuccessAppInit || e.action == FailedAppInit
  {
    AttemptOutcome(plan, env);
    forall e | e in plan && e.Dispatched?
      ensures e.action == SuccessAppInit
    {
      var k :| 0 <= k < |plan| && plan[k] == e;
    }
  }

  /** After the identity check, the network's stored identity is the one the check returned. */
  lemma IdentityStored(s: AppState, sin: Option<AppIdentity>)
    ensures var s0 := Apply(s, IdentityEvents(s, sin));
      s0.network == s.network && StoredIdentity(s0, s0.network) == EnsuredIdentity(s, sin)
  {
    var head := IdentityEvents(s, sin);
    if head != [] {
      assert head[..0] == [];
    }
  }

  /** The bindings `initializeApi` performs: both, unless the first throws. */
  function ApiCalls(env: Env, bp: Event, gq: Event): seq<Event> {
    if Throws(env, bp) then [bp] else [bp, gq]
  }

  /** Being outside calls, the API bindings leave the APP slice as it was. */
  lemma ApiCallsKeepApp(s0: AppState, done: seq<Event>, bp: Event, gq: Event, env: Env)
    requires bp.Invoked? && gq.Invoked?
    ensures Apply(s0, done + ApiCalls(env, bp, gq)) == Apply(s0, done)
  {
    assert (done + [bp])[..|done|] == done;
    if !Throws(env, bp) {
      assert (done + [bp, gq])[..|done| + 1] == done + [bp];
    }
  }

  /** The two API bindings inside the `try`: the first that throws is followed by `failedAppInit`. */
  lemma ApiAttempt(bp: Event, gq: Event, more: seq<Event>, env: Env)
    ensures Attempt([bp] + ([gq] + more), env) == ApiCalls(env, bp, gq) +
      if Throws(env, bp) || Throws(env, gq) then [Dispatched(FailedAppInit)] else Attempt(more, env)
  {
    var steps := [bp] + ([gq] + more);
    assert steps[0] == bp && steps[1..] == [gq] + more;
    if !Throws(env, bp) {
      assert ([gq] + more)[0] == gq && ([gq] + more)[1..] == more;
      assert Attempt(steps, env) == [bp] + Attempt([gq] + more, env);
    }
  }

  /** The store the effects run against. */
  class AppStore {
    var app: AppState
    var apiToken: map<Network, string>
    var trace: seq<Event>

    constructor (app: AppState, apiToken: map<Network, string>)
      ensures this.app == app && this.apiToken == apiToken && trace == []
    {
      this.app := app;
      this.apiToken := apiToken;
      trace := [];
    }

    method Dispatch(a: AppAction)
      modifies this
      ensures app == Reduce(old(app), a) && apiToken == old(apiToken)
      ensures trace == old(trace) + [Dispatched(a)]
    {
      app := Reduce(app, a);
      trace := trace + [Dispatched(a)];
    }

    /** Makes an outside call; `ok` is false when it throws. */
    method Invoke(c: Call, env: Env) returns (ok: bool)
      modifies this
      ensures app == old(app) && apiToken == old(apiToken)
      ensures trace == old(trace) + [Invoked(c)]
      ensures ok == !Throws(env, Invoked(c))
    {
      trace := trace + [Invoked(c)];
      ok := !Throws(env, Invoked(c));
    }

    /**
     * `initializeAppIdentity`: keep a usable stored identity; otherwise
     * generate one and store it, or on a generation error dispatch the failure
     * and hand back the old (unusable) identity.
     */
    method InitializeAppIdentity(sin: Option<AppIdentity>) returns (identity: Option<AppIdentity>)
      modifies this
      ensures identity == EnsuredIdentity(old(app), sin)
      ensures trace == old(trace) + IdentityEvents(old(app), sin)
      ensures app == Apply(old(app), IdentityEvents(old(app), sin)) && apiToken == old(apiToken)
      ensures Usable(StoredIdentity(old(app), old(app).network)) ==> trace == old(trace) && app == old(app)
    {
      identity := StoredIdentity(app, app.network);
      if !Usable(identity) {
        if sin.Some? {
          identity := sin;
          Dispatch(SuccessGenerateAppIdentity(app.network, identity.value));
        } else {
          Dispatch(FailedGenerateAppIdentity);
        }
      }
    }

    /** `initializeApi`: bind the BitPay and GraphQL clients to the same network and identity. */
    method InitializeApi(network: Network, identity: Option<AppIdentity>, env: Env) returns (ok: bool)
      modifies this
      ensures app == old(app) && apiToken == old(apiToken)
      ensures ok == (!Throws(env, Invoked(ApiInit(BitPayApi, network, identity)))
                     && !Throws(env, Invoked(ApiInit(GraphQlApi, network, identity))))
      ensures Throws(env, Invoked(ApiInit(BitPayApi, network, identity))) ==>
        trace == old(trace) + [Invoked(ApiInit(BitPayApi, network, identity))]
      ensures !Throws(env, Invoked(ApiInit(BitPayApi, network, identity))) ==>
        trace == old(trace) + [Invoked(ApiInit(BitPayApi, network, identity)), Invoked(ApiInit(GraphQlApi, network, identity))]
    {
      ok := Invoke(ApiInit(BitPayApi, network, identity), env);
      if ok {
        ok := Invoke(ApiInit(GraphQlApi, network, identity), env);
      }
    }

    /**
     * `startOnGoingProcessModal(message)`: dismiss a modal already showing,
     * then show the new message.
     */
    method StartOnGoingProcessModal(message: string)
      modifies this
      ensures trace == old(trace)
        + (if old(app).showOnGoingProcessModal then [Dispatched(DismissOnGoingProcessModal)] else [])
        + [Dispatched(ShowOnGoingProcessModal(message))]
      ensures app == old(app).(showOnGoingProcessModal := true, onGoingProcessModalMessage := Some(message))
      ensures apiToken == old(apiToken)
    {
      if app.showOnGoingProcessModal {
        Dispatch(DismissOnGoingProcessModal);
      }
      Dispatch(ShowOnGoingProcessModal(message));
    }

    /**
     * One statement of `startAppInit`'s `try` block: perform the next planned
     * step `e`, which leaves `more` to do; if it throws, the `catch` dispatches
     * `failedAppInit` and the run ends. `done` is what has been done so far and
     * `goal` the whole trace the run is to produce.
     */
    method Step(ghost s0: AppState, ghost t0: seq<Event>, ghost goal: seq<Event>,
                ghost done: seq<Event>, ghost more: seq<Event>, env: Env, e: Event)
      returns (ok: bool)
      requires trace == t0 + done && app == Apply(s0, done)
      requires goal == done + Attempt([e] + more, env)
      modifies this
      ensures apiToken == old(apiToken)
      ensures ok == !Throws(env, e)
      ensures ok ==> && trace == t0 + (done + [e]) && app == Apply(s0, done + [e])
                     && goal == (done + [e]) + Attempt(more, env)
      ensures !ok ==> trace == t0 + goal && app == Apply(s0, goal)
    {
      assert ([e] + more)[0] == e && ([e] + more)[1..] == more;
      if e.Dispatched? {
        Dispatch(e.action);
        ok := true;
      } else {
        ok := Invoke(e.call, env);
      }
      assert (done + [e])[..|done + [e]| - 1] == done;
      if !ok {
        Catch(s0, t0, goal, done + [e]);
      }
    }

    /**
     * The `initializeApi` statement of `startAppInit`'s `try` block: a throw
     * from either client's `init` reaches the `catch`, which dispatches
     * `failedAppInit` and ends the run.
     */
    method InitApiStep(ghost s0: AppState, ghost t0: seq<Event>, ghost goal: seq<Event>,
                       ghost done: seq<Event>, ghost more: seq<Event>,
                       network: Network, identity: Option<AppIdentity>, env: Env)
      returns (ok: bool)
      requires trace == t0 + done && app == Apply(s0, done)
      requires goal == done + Attempt([Invoked(ApiInit(BitPayApi, network, identity))]
                                      + ([Invoked(ApiInit(GraphQlApi, network, identity))] + more), env)
      modifies this
      ensures apiToken == old(apiToken)
      ensures ok ==> && var d := done + [Invoked(ApiInit(BitPayApi, network, identity)), Invoked(ApiInit(GraphQlApi, network, identity))];
                     && trace == t0 + d && app == Apply(s0, d) && goal == d + Attempt(more, env)
      ensures !ok ==> trace == t0 + goal && app == Apply(s0, goal)
    {
      ghost var bp, gq := Invoked(ApiInit(BitPayApi, network, identity)), Invoked(ApiInit(GraphQlApi, network, identity));
      ApiCallsKeepApp(s0, done, bp, gq, env);
      ApiAttempt(bp, gq, more, env);
      ok := InitializeApi(network, identity, env);
      ghost var called := ApiCalls(env, bp, gq);
      assert trace == t0 + (done + called);
      if !ok {
        Catch(s0, t0, goal, done + called);
      }
    }

    /** The `catch` of `startAppInit` after the steps `done`: dispatch `failedAppInit`, which ends the run. */
    method Catch(ghost s0: AppState, ghost t0: seq<Event>, ghost goal: seq<Event>, ghost done: seq<Event>)
      requires trace == t0 + done && app == Apply(s0, done)
      requires goal == done + [Dispatched(FailedAppInit)]
      modifies this
      ensures apiToken == old(apiToken)
      ensures trace == t0 + goal && app == Apply(s0, goal)
    {
      Dispatch(FailedAppInit);
      assert goal[..|done|] == done;
    }

    /** The `if (isPaired)` block of `startAppInit`: fetch the user's data, then seed the BitPay ID and card stores. */
    method InitPairedStores(ghost s0: AppState, ghost t0: seq<Event>, ghost goal: seq<Event>,
                            ghost done: seq<Event>, ghost after: seq<Event>,
                            network: Network, token: Option<string>, env: Env)
      returns (ok: bool)
      requires trace == t0 + done && app == Apply(s0, done)
      requires goal == done + Attempt(PairedSteps(network, token, env.userData, after), env)
      modifies this
      ensures apiToken == old(apiToken)
      ensures ok ==> && var d := done + PairedSteps(network, token, env.userData, []);
                     && trace == t0 + d && app == Apply(s0, d) && goal == d + Attempt(after, env)
      ensures !ok ==> trace == t0 + goal && app == Apply(s0, goal)
    {
      ok := true;
      if Paired(token) {
        ghost var card := [Invoked(StartCardStoreInit(network, env.userData.cards))] + after;
        ghost var bitPayId := [Invoked(StartBitPayIdStoreInit(network, env.userData.basicInfo))] + card;
        ok := Step(s0, t0, goal, done, bitPayId, env, Invoked(FetchAllUserData(token.value)));
        if !ok { return; }
        ghost var d := done + [Invoked(FetchAllUserData(token.value))];
        ok := Step(s0, t0, goal, d, card, env, Invoked(StartBitPayIdStoreInit(network, env.userData.basicInfo)));
        if !ok { return; }
        d := d + [Invoked(StartBitPayIdStoreInit(network, env.userData.basicInfo))];
        ok := Step(s0, t0, goal, d, after, env, Invoked(StartCardStoreInit(network, env.userData.cards)));
        if !ok { return; }
        d := d + [Invoked(StartCardStoreInit(network, env.userData.cards))];
        assert d == done + PairedSteps(network, token, env.userData, []);
      } else {
        assert done + PairedSteps(network, token, env.userData, []) == done;
      }
    }

    /** The end of `startAppInit`'s `try` block: start Dosh, report success, hide the splash screen. */
    method Finish(ghost s0: AppState, ghost t0: seq<Event>, ghost goal: seq<Event>, ghost done: seq<Event>, env: Env)
      requires trace == t0 + done && app == Apply(s0, done)
      requires goal == done + Attempt([Invoked(InitializeDosh)] + ([Dispatched(SuccessAppInit)] + [Invoked(HideSplash)]), env)
      modifies this
      ensures apiToken == old(apiToken)
      ensures trace == t0 + goal && app == Apply(s0, goal)
    {
      var ok := Step(s0, t0, goal, done, [Dispatched(SuccessAppInit)] + [Invoked(HideSplash)], env, Invoked(InitializeDosh));
      if !ok { return; }
      ghost var d := done + [Invoked(InitializeDosh)];
      ok := Step(s0, t0, goal, d, [Invoked(HideSplash)], env, Dispatched(SuccessAppInit));
      d := d + [Dispatched(SuccessAppInit)];
      // `RNBootSplash.hide` is not awaited, so a failure there is not caught
      ok := Step(s0, t0, goal, d, [], env, Invoked(HideSplash));
    }

    /** `startAppInit`: the bootstrap sequence inside one `try`. */
    method StartAppInit(env: Env)
      modifies this
      ensures trace == old(trace) + AppInitEvents(old(app), old(apiToken), env)
      ensures app == Apply(old(app), AppInitEvents(old(app), old(apiToken), env))
      ensures apiToken == old(apiToken)
    {
      ghost var s0, t0 := app, trace;
      var network := app.network;
      var token := TokenFor(apiToken, network);
      var isPaired := Paired(token);
      var identity := InitializeAppIdentity(env.sin);
      ghost var goal := AppInitEvents(s0, apiToken, env);
      ghost var done := IdentityEvents(s0, env.sin);
      ghost var tail := [Invoked(InitializeDosh)] + ([Dispatched(SuccessAppInit)] + [Invoked(HideSplash)]);
      ghost var paired := PairedSteps(network, token, env.userData, tail);
      ghost var wallet := [Invoked(StartWalletStoreInit)] + paired;

      var ok := InitApiStep(s0, t0, goal, done, wallet, network, identity, env);
      if !ok { return; }
      done := done + [Invoked(ApiInit(BitPayApi, network, identity)), Invoked(ApiInit(GraphQlApi, network, identity))];
      ok := Step(s0, t0, goal, done, paired, env, Invoked(StartWalletStoreInit));
      if !ok { return; }
      done := done + [Invoked(StartWalletStoreInit)];
      ok := InitPairedStores(s0, t0, goal, done, tail, network, token, env);
      if !ok { return; }
      done := done + PairedSteps(network, token, env.userData, []);
      Finish(s0, t0, goal, done, env);
    }
  }
}
