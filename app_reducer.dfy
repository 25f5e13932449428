/**
 * The APP slice of the Redux store (src/store/app/app.reducer.ts): its state
 * record, its initial value, the reducer and the list of fields that are not
 * persisted across restarts.
 */
module AppReducer {
  import opened Wrappers

  datatype Network = Mainnet | Testnet

  /**
   * A BitAuth identity as persisted. Each component may be absent (a
   * persisted record can be `{}`), or present and possibly empty.
   */
  datatype AppIdentity = AppIdentity(priv: Option<string>, pub: Option<string>, sin: Option<string>)

  /** An identity that `initializeAppIdentity` keeps: it has at least one key and a non-empty `priv`. */
  predicate Usable(id: Option<AppIdentity>) {
    && id.Some?
    && (id.value.priv.Some? || id.value.pub.Some? || id.value.sin.Some?)
    && id.value.priv.Some? && id.value.priv.value != ""
  }

  datatype ColorScheme = Light | Dark | NoScheme

  /** The bottom sheet's settings (its buttons are left out). */
  datatype BottomNotificationConfig = BottomNotificationConfig(
    kind: string, title: string, message: string, enableBackdropDismiss: bool)

  datatype Route = Route(screen: string, params: map<string, string>)

  datatype AppState = AppState(
    identity: map<Network, AppIdentity>,
    network: Network,
    baseBitPayURL: string,
    appIsLoading: bool,
    onboardingCompleted: bool,
    showOnGoingProcessModal: bool,
    onGoingProcessModalMessage: Option<string>,
    showBottomNotificationModal: bool,
    bottomNotificationModalConfig: Option<BottomNotificationConfig>,
    colorScheme: ColorScheme,
    currentRoute: Option<Route>,
    notificationsAccepted: bool)

  /** The stored identity for a network, `undefined` when there is none. */
  function StoredIdentity(s: AppState, network: Network): Option<AppIdentity> {
    if network in s.identity then Some(s.identity[network]) else None
  }

  /** `OnGoingProcessMessages.GENERAL_AWAITING`, the message shown by default. */
  const GeneralAwaiting: string := "GENERAL_AWAITING"

  const EmptyIdentity: AppIdentity := AppIdentity(Some(""), Some(""), Some(""))

  /**
   * `initialState`, for the configured `APP_NETWORK` and the mainnet entry of
   * `BASE_BITPAY_URLS`: loading, with empty identities on both networks.
   */
  function InitialState(appNetwork: Network, mainnetURL: string): (s: AppState)
    ensures s.appIsLoading && !s.onboardingCompleted
    ensures s.identity.Keys == {Mainnet, Testnet}
    ensures forall n :: n in s.identity ==> s.identity[n] == EmptyIdentity
    ensures !Usable(StoredIdentity(s, Mainnet)) && !Usable(StoredIdentity(s, Testnet))
    ensures !s.showOnGoingProcessModal && !s.showBottomNotificationModal
    ensures s.network == appNetwork && s.baseBitPayURL == mainnetURL
  {
    AppState(
      map[Mainnet := EmptyIdentity, Testnet := EmptyIdentity],
      appNetwork,
      mainnetURL,
      true,
      false,
      false,
      Some(GeneralAwaiting),
      false,
      None,
      Light,
      None,
      false)
  }

  datatype AppAction =
    | SuccessAppInit
    | FailedAppInit
    | SetOnboardingCompleted
    | ShowOnGoingProcessModal(message: string)
    | DismissOnGoingProcessModal
    | ShowBottomNotificationModal(config: BottomNotificationConfig)
    | DismissBottomNotificationModal
    | SetColorScheme(scheme: ColorScheme)
    | SetCurrentRoute(route: Option<Route>)
    | SuccessGenerateAppIdentity(network: Network, id: AppIdentity)
    | FailedGenerateAppIdentity
    | SetNotificationsAccepted(accepted: bool)
    | OtherAppAction(name: string)   // any other action type of the app slice

  /** `appReducer`. No case touches the selected network or the base URL. */
  function Reduce(s: AppState, a: AppAction): (r: AppState)
    ensures r.network == s.network && r.baseBitPayURL == s.baseBitPayURL
  {
    match a
    case SuccessAppInit => s.(appIsLoading := false)
    case SetOnboardingCompleted => s.(onboardingCompleted := true)
    case ShowOnGoingProcessModal(message) =>
      s.(showOnGoingProcessModal := true, onGoingProcessModalMessage := Some(message))
    case DismissOnGoingProcessModal => s.(showOnGoingProcessModal := false)
    case ShowBottomNotificationModal(config) =>
      s.(showBottomNotificationModal := true, bottomNotificationModalConfig := Some(config))
    case DismissBottomNotificationModal => s.(showBottomNotificationModal := false)
    case SetColorScheme(scheme) => s.(colorScheme := scheme)
    case SetCurrentRoute(route) => s.(currentRoute := route)
    case SuccessGenerateAppIdentity(network, id) => s.(identity := s.identity[network := id])
    case SetNotificationsAccepted(accepted) => s.(notificationsAccepted := accepted)
    case _ => s
  }

  /** The keys of the APP slice's state, named after its fields. */
  datatype Field =
    | IdentityField
    | NetworkField
    | BaseBitPayURLField
    | AppIsLoadingField
    | OnboardingCompletedField
    | ShowOnGoingProcessModalField
    | OnGoingProcessModalMessageField
    | ShowBottomNotificationModalField
    | BottomNotificationModalConfigField
    | ColorSchemeField
    | CurrentRouteField
    | NotificationsAcceptedField

  /** The fields on which two states differ. */
  function ChangedFields(s: AppState, r: AppState): (f: set<Field>)
    ensures f == {} <==> s == r
  {
    (if s.identity != r.identity then {IdentityField} else {})
    + (if s.network != r.network then {NetworkField} else {})
    + (if s.baseBitPayURL != r.baseBitPayURL then {BaseBitPayURLField} else {})
    + (if s.appIsLoading != r.appIsLoading then {AppIsLoadingField} else {})
    + (if s.onboardingCompleted != r.onboardingCompleted then {OnboardingCompletedField} else {})
    + (if s.showOnGoingProcessModal != r.showOnGoingProcessModal then {ShowOnGoingProcessModalField} else {})
    + (if s.onGoingProcessModalMessage != r.onGoingProcessModalMessage then {OnGoingProcessModalMessageField} else {})
    + (if s.showBottomNotificationModal != r.showBottomNotificationModal then {ShowBottomNotificationModalField} else {})
    + (if s.bottomNotificationModalConfig != r.bottomNotificationModalConfig then {BottomNotificationModalConfigField} else {})
    + (if s.colorScheme != r.colorScheme then {ColorSchemeField} else {})
    + (if s.currentRoute != r.currentRoute then {CurrentRouteField} else {})
    + (if s.notificationsAccepted != r.notificationsAccepted then {NotificationsAcceptedField} else {})
  }

  /** The fields each action's case writes; actions without a case write none. */
  function Writes(a: AppAction): set<Field> {
    match a
    case SuccessAppInit => {AppIsLoadingField}
    case SetOnboardingCompleted => {OnboardingCompletedField}
    case ShowOnGoingProcessModal(_) => {ShowOnGoingProcessModalField, OnGoingProcessModalMessageField}
    case DismissOnGoingProcessModal => {ShowOnGoingProcessModalField}
    case ShowBottomNotificationModal(_) => {ShowBottomNotificationModalField, BottomNotificationModalConfigField}
    case DismissBottomNotificationModal => {ShowBottomNotificationModalField}
    case SetColorScheme(_) => {ColorSchemeField}
    case SetCurrentRoute(_) => {CurrentRouteField}
    case SuccessGenerateAppIdentity(_, _) => {IdentityField}
    case SetNotificationsAccepted(_) => {NotificationsAcceptedField}
    case _ => {}
  }

  /** Every case changes only the fields it names; in particular an unhandled action returns the state unchanged. */
  lemma ReduceFrame(s: AppState, a: AppAction)
    ensures ChangedFields(s, Reduce(s, a)) <= Writes(a)
    ensures Writes(a) == {} ==> Reduce(s, a) == s
  {
    match a
    case SuccessAppInit =>
    case FailedAppInit =>
    case SetOnboardingCompleted =>
    case ShowOnGoingProcessModal(_) =>
    case DismissOnGoingProcessModal =>
    case ShowBottomNotificationModal(_) =>
    case DismissBottomNotificationModal =>
    case SetColorScheme(_) =>
    case SetCurrentRoute(_) =>
    case SuccessGenerateAppIdentity(_, _) =>
    case FailedGenerateAppIdentity =>
    case SetNotificationsAccepted(_) =>
    case OtherAppAction(_) =>
  }

  /** The values the cases write. */
  lemma ReduceWrites(s: AppState, a: AppAction)
    ensures a == SuccessAppInit ==> !Reduce(s, a).appIsLoading
    ensures a == SetOnboardingCompleted ==> Reduce(s, a).onboardingCompleted
    ensures a.ShowOnGoingProcessModal? ==>
      Reduce(s, a).showOnGoingProcessModal && Reduce(s, a).onGoingProcessModalMessage == Some(a.message)
    ensures a == DismissOnGoingProcessModal ==>
      !Reduce(s, a).showOnGoingProcessModal && Reduce(s, a).onGoingProcessModalMessage == s.onGoingProcessModalMessage
    ensures a.ShowBottomNotificationModal? ==>
      Reduce(s, a).showBottomNotificationModal && Reduce(s, a).bottomNotificationModalConfig == Some(a.config)
    ensures a == DismissBottomNotificationModal ==>
      !Reduce(s, a).showBottomNotificationModal && Reduce(s, a).bottomNotificationModalConfig == s.bottomNotificationModalConfig
    ensures a.SuccessGenerateAppIdentity? ==>
      && StoredIdentity(Reduce(s, a), a.network) == Some(a.id)
      && forall n :: n != a.network ==> StoredIdentity(Reduce(s, a), n) == StoredIdentity(s, n)
    ensures a == FailedAppInit ==> Reduce(s, a) == s
  {
  }

  /** Every action is idempotent: dispatching it twice in a row is the same as once. */
  lemma ReduceIdempotent(s: AppState, a: AppAction)
    ensures Reduce(Reduce(s, a), a) == Reduce(s, a)
  {
  }

  /** `appReduxPersistBlackList`: the fields that are not written to storage. */
  const AppReduxPersistBlackList: seq<Field> :=
    [AppIsLoadingField, ShowOnGoingProcessModalField, OnGoingProcessModalMessageField]

  /**
   * The APP slice after a restart, as `persistReducer` with the
   * `autoMergeLevel2` reconciler rebuilds it: persisted fields come back from
   * storage, the black-listed ones from the initial state, and `identity`, the
   * one persisted field whose initial value is a plain object, is merged one
   * level deep: stored entries over the initial ones.
   */
  function Rehydrate(stored: AppState, initial: AppState): (s: AppState)
    ensures ChangedFields(stored, s) <= (set f | f in AppReduxPersistBlackList) + {IdentityField}
    ensures ChangedFields(initial, s) !! set f | f in AppReduxPersistBlackList
    ensures s.identity.Keys == stored.identity.Keys + initial.identity.Keys
    ensures forall n :: StoredIdentity(s, n) == if n in stored.identity then StoredIdentity(stored, n) else StoredIdentity(initial, n)
  {
    stored.(
      identity := initial.identity + stored.identity,
      appIsLoading := initial.appIsLoading,
      showOnGoingProcessModal := initial.showOnGoingProcessModal,
      onGoingProcessModalMessage := initial.onGoingProcessModalMessage)
  }

  /**
   * Whatever was stored, the app restarts loading and without the
   * ongoing-process modal, keeps every stored identity and the onboarding
   * flag, and has an identity entry for both networks.
   */
  lemma RestartIsLoading(stored: AppState, appNetwork: Network, mainnetURL: string)
    ensures var s := Rehydrate(stored, InitialState(appNetwork, mainnetURL));
      && s.appIsLoading && !s.showOnGoingProcessModal
      && s.onboardingCompleted == stored.onboardingCompleted
      && (forall n :: n in stored.identity ==> StoredIdentity(s, n) == StoredIdentity(stored, n))
      && (forall n :: n !in stored.identity ==> StoredIdentity(s, n) == Some(EmptyIdentity))
      && StoredIdentity(s, Mainnet).Some? && StoredIdentity(s, Testnet).Some?
  {
    var initial := InitialState(appNetwork, mainnetURL);
    forall n: Network
      ensures n in initial.identity && initial.identity[n] == EmptyIdentity
    {
      assert n == Mainnet || n == Testnet;
    }
  }
}
