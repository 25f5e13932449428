# BitPay app core logic in Dafny

This project models five pieces of the BitPay wallet app's sequential logic and proves properties about them:

- **Gated telemetry client** (`segment.dfy`, module `Segment`). A process-wide singleton holds a nullable Segment SDK client and a FIFO queue of deferred calls.
  - `guard` drops a call when analytics are disabled, queues it before `init`, and runs it at once afterwards.
  - `init` creates the client once, attaches its plugins, and drains the queue head first, discarding rejections.
  - The singleton is the class `Analytics`. The pure specification `GuardStep` / `InitStep` / `Run` works over a `Gate` value, and the lemmas about it state the kill switch, exactly-once in-order delivery, and client permanence.
- **App reducer** (`app_reducer.dfy`, module `AppReducer`). The APP slice's state record, its initial value, the reducer over every action, and the persistence black-list.
  - Frames are stated with `ChangedFields` (the fields two states differ on, as the enumeration `Field`) against `Writes(a)` (the fields an action's case writes).
- **App effects** (`app_effects.dfy`, module `AppEffects`). `startAppInit`, `initializeAppIdentity`, `initializeApi` and `startOnGoingProcessModal` act on a store `AppStore`. The store holds the APP slice, the BitPay ID API tokens, and a trace of every dispatched action and every outside call, in order.
  - Outside calls (BitAuth, the API clients, the user-data fetch, the wallet/BitPay ID/card store inits, Dosh, the splash screen) are abstract steps. Whether one throws is given by an `Env`.
  - The specification `AppInitEvents` is the identity check's actions followed by `Attempt(plan, env)`. `Attempt` is the `try` block: it runs the planned steps in order, and the first that throws is followed by `failedAppInit`.
- **Currency selection** (`currency_selection.dfy`, module `CurrencySelection`). The wallet's currency-selection screen:
  - the list construction from the supported coins and the merged token options and token data;
  - the search filter;
  - the `selectedCurrencies` projection;
  - the `onToggle` state machine in `multi` and `single` mode;
  - the add-wallet and multisig buttons' lookups.
- **Payment-method page** (`crypto_payment_method.dfy`, module `CryptoPaymentMethod`). The buy-crypto payment-method page is the class `CryptoPaymentMethodPage`. Its `methods` table is filtered to the enabled entries on load. `methodSelected` is defaulted once on enter. `save` dismisses with the chosen method only when the selection changed.

`wrappers.dfy` holds the `Option` type.

Three consequences of how `startAppInit` is written, which the model keeps:
- The paired-account fetch (src/store/app/app.effects.ts:39) and the Dosh call (line 46) sit inside the single `try` (lines 23-55), so a failure in either ends the run with `failedAppInit`. `FetchFailureIsFatal` proves this for the fetch.
- The splash screen is hidden only on the success path (line 51). `AppInitOutcome` proves this.
- A failed identity generation is caught inside `initializeAppIdentity` (lines 76-83), so the run goes on with the old identity.

## Model

| member | source | states |
|---|---|---|
| Segment.AddPlugins | src/lib/segment/index.ts:21-29 | Attaching plugins keeps the client's settings, always adds Appsflyer, and adds IDFA exactly on iOS |
| Segment.KillSwitch | src/lib/segment/index.ts:39-41 | With analytics disabled, any sequence of calls and `init`s leaves the module's state unchanged: nothing queued, no client, nothing sent |
| Segment.RunFromFresh | src/lib/segment/index.ts:36-100 | From the fresh module with analytics enabled: before any `init`, every call is queued in submission order and none has run; after an `init`, the client is the configured one, the queue is empty, and the SDK has received every call exactly once, in submission order |
| Segment.ClientIsPermanent | src/lib/segment/index.ts:43-49 | Once a client exists it is never replaced or reset, and nothing more is queued |
| Segment.InitIdempotent | src/lib/segment/index.ts:65-71 | A second `init` changes nothing, so the client is created and the queue drained at most once |
| Segment.Analytics.constructor | src/lib/segment/index.ts:17-19 | The singleton starts with no client and an empty queue |
| Segment.Analytics.GetClient | src/lib/segment/index.ts:57-59 | Returns the current client (none before `init`) |
| Segment.Analytics.Guard | src/lib/segment/index.ts:36-50 | Disabled: state untouched, resolves void. No client: the call is appended to the queue and not run, resolves void. Client present: the call runs now and its reply is returned, queue untouched |
| Segment.Analytics.Init | src/lib/segment/index.ts:64-100 | No-op when disabled or already initialised; otherwise creates the client with its plugins and drains the whole queue into the SDK in order, ending with an empty queue; a rejection does not stop the drain |
| Segment.Analytics.Identify | src/lib/segment/index.ts:109-111 | The identify call goes through `guard`, and the promise `guard` gives back is returned: void when disabled or before `init`, the SDK's reply afterwards |
| Segment.Analytics.Screen | src/lib/segment/index.ts:120-122 | The screen call goes through `guard`, and the promise `guard` gives back is returned: void when disabled or before `init`, the SDK's reply afterwards |
| Segment.Analytics.Track | src/lib/segment/index.ts:131-133 | The track call goes through `guard`, and the promise `guard` gives back is returned: void when disabled or before `init`, the SDK's reply afterwards |
| AppReducer.InitialState | src/store/app/app.reducer.ts:38-62 | The initial state is loading, not onboarded, with empty (unusable) identities on both networks, no modal showing, on the configured network and mainnet URL |
| AppReducer.Reduce | src/store/app/app.reducer.ts:64-138 | No action changes the selected network or the base URL |
| AppReducer.ReduceFrame | src/store/app/app.reducer.ts:64-138 | Each case changes only the fields it writes; an action without a case returns the state unchanged |
| AppReducer.ReduceWrites | src/store/app/app.reducer.ts:69-134 | The values each case writes: loading ends on success, onboarding set, modal shown with its message or hidden with the message kept, bottom sheet shown with its config or hidden, identity stored for the given network only, `failedAppInit` a no-op |
| AppReducer.ReduceIdempotent | src/store/app/app.reducer.ts:64-138 | Dispatching any action twice in a row equals dispatching it once |
| AppReducer.Rehydrate | src/store/index.ts:16-35 | After a restart the black-listed fields come from the initial state and the rest from storage, except `identity`, which is merged one level deep: every stored network entry, and the initial entry for each network storage lacks |
| AppReducer.RestartIsLoading | src/store/app/app.reducer.ts:15-62 | Whatever was stored, the app restarts loading without the ongoing-process modal, keeping the onboarding flag and every stored identity, with an (empty) identity entry for each network storage lacks, so both networks have one |
| AppEffects.FirstThrow | src/store/app/app.effects.ts:23-52 | The index of the first step that throws: every earlier step succeeds and that one throws |
| AppEffects.AttemptShape | src/store/app/app.effects.ts:23-55 | The `try` runs all steps when none throws, otherwise the steps up to and including the first that throws, then `failedAppInit` |
| AppEffects.AttemptReaches | src/store/app/app.effects.ts:23-52 | A step whose predecessors all succeed is attempted |
| AppEffects.AttemptFailsAt | src/store/app/app.effects.ts:23-55 | The first step that throws ends the run right after it with `failedAppInit` |
| AppEffects.PlanParts | src/store/app/app.effects.ts:31-51 | The run's steps in order: both API bindings, wallet-store init, the paired block when paired, Dosh, `successAppInit`, splash hide |
| AppEffects.PlanFacts | src/store/app/app.effects.ts:29-51 | The plan ends with success and splash hide, has no failure action, holds paired steps only with a token and fetches with that token, which is the fourth step |
| AppEffects.AttemptOutcome | src/store/app/app.effects.ts:23-55 | For such a plan: success and splash hide happen if and only if no step throws, failure if and only if one does, and only planned steps run |
| AppEffects.IdentityEventsAreIdentityActions | src/store/app/app.effects.ts:69-83 | The identity check dispatches only identity actions |
| AppEffects.AppInitOutcome | src/store/app/app.effects.ts:22-56 | A run dispatches `successAppInit` and hides the splash if and only if no step throws, and dispatches `failedAppInit` if and only if one does |
| AppEffects.PairedStepsNeedToken | src/store/app/app.effects.ts:29-43 | The fetch and the BitPay ID and card store inits occur only when the network has a truthy token, and the fetch uses that token |
| AppEffects.TokenStartsFetch | src/store/app/app.effects.ts:29-39 | With a token, and the API and wallet steps succeeding, the fetch is attempted |
| AppEffects.FetchFailureIsFatal | src/store/app/app.effects.ts:39-55 | A failing fetch ends the run: the trace stops at it with `failedAppInit`, and Dosh never runs |
| AppEffects.InitActionsKeepIdentity | src/store/app/app.effects.ts:49-54 | The run's own success and failure actions leave identities and network alone |
| AppEffects.IdentityStored | src/store/app/app.effects.ts:62-89 | After the identity check, the network's stored identity is the one the check returns |
| AppEffects.IdentityGeneratedOnce | src/store/app/app.effects.ts:65-75 | After a run that kept or generated a usable identity, the next run generates none and uses the same identity |
| AppEffects.ApiCallsKeepApp | src/store/app/app.effects.ts:97-102 | The API bindings, being outside calls, leave the APP slice as it was |
| AppEffects.ApiAttempt | src/store/app/app.effects.ts:33 | Inside the `try`, the BitPay binding runs first; if it throws, `failedAppInit` follows and the GraphQL binding never runs; if the GraphQL binding throws, `failedAppInit` follows; otherwise the run goes on |
| AppEffects.AppStore.InitializeAppIdentity | src/store/app/app.effects.ts:62-89 | Returns the stored identity if usable, otherwise a generated one stored via `successGenerateAppIdentity`, otherwise (generation threw) dispatches `failedGenerateAppIdentity` and returns the old value; a usable identity changes nothing |
| AppEffects.AppStore.InitializeApi | src/store/app/app.effects.ts:97-102 | Binds the BitPay client, then the GraphQL client, both to the same network and identity; a throw from the first stops the second and is reported to the caller |
| AppEffects.AppStore.InitApiStep | src/store/app/app.effects.ts:33 | The `initializeApi` statement of the `try`: both bindings, and if either throws, `failedAppInit` and the trace is complete |
| AppEffects.AppStore.StartOnGoingProcessModal | src/store/app/app.effects.ts:104-117 | Dismisses a showing modal first, always ends showing the message |
| AppEffects.AppStore.Step | src/store/app/app.effects.ts:23-55 | One statement of the `try`: perform the step; if it throws, dispatch `failedAppInit` and the trace is complete |
| AppEffects.AppStore.Catch | src/store/app/app.effects.ts:53-55 | The `catch`: dispatches `failedAppInit`, after which the trace is complete |
| AppEffects.AppStore.InitPairedStores | src/store/app/app.effects.ts:38-43 | The paired block: fetch, then BitPay ID and card store inits with the fetched data, only when paired |
| AppEffects.AppStore.Finish | src/store/app/app.effects.ts:46-51 | Dosh, `successAppInit`, splash hide |
| AppEffects.AppStore.StartAppInit | src/store/app/app.effects.ts:22-56 | The trace and the APP slice after `startAppInit` are exactly the specification's `AppInitEvents` and their reduction |
| CurrencySelection.Lower | src/navigation/wallet/screens/CurrencySelection.tsx:171-180 | Lower-casing keeps the length and leaves no upper-case ASCII letter |
| CurrencySelection.LowerIdempotent | src/navigation/wallet/screens/CurrencySelection.tsx:171-180 | Lower-casing twice is lower-casing once |
| CurrencySelection.MatchingTokens | src/navigation/wallet/screens/CurrencySelection.tsx:177-181 | Exactly the popular tokens whose lower-cased abbreviation or name includes the filter |
| CurrencySelection.MatchingTokensAppend | src/navigation/wallet/screens/CurrencySelection.tsx:177-181 | The token filter works token by token and keeps the tokens' order |
| CurrencySelection.FilterItemsAppend | src/navigation/wallet/screens/CurrencySelection.tsx:170-191 | The filter works item by item and keeps list order |
| CurrencySelection.FilterItemsSurvivors | src/navigation/wallet/screens/CurrencySelection.tsx:170-191 | An item is in the filtered list, narrowed to its matching popular tokens, if and only if it or one of its popular tokens matches |
| CurrencySelection.EmptyFilterKeepsList | src/navigation/wallet/screens/CurrencySelection.tsx:165-167 | An empty filter returns the list unchanged |
| CurrencySelection.FilterNarrowsPopular | src/navigation/wallet/screens/CurrencySelection.tsx:177-188 | With a filter, every popular token left matches it |
| CurrencySelection.TokenSelectionsFacts | src/navigation/wallet/screens/CurrencySelection.tsx:356-364 | The selected tokens are listed under the item's chain, exactly the selected ones |
| CurrencySelection.SelectedCurrenciesAppend | src/navigation/wallet/screens/CurrencySelection.tsx:342-366 | `selectedCurrencies` goes item by item, in list order |
| CurrencySelection.SelectedCurrenciesFacts | src/navigation/wallet/screens/CurrencySelection.tsx:342-366 | Empty if and only if nothing is selected; every entry's chain is its item's lower-cased abbreviation, and it is that selected currency or one of its selected tokens |
| CurrencySelection.MergedTokenOptions | src/navigation/wallet/screens/CurrencySelection.tsx:246-250 | The merged options hold every key of the three maps, custom over app over supported |
| CurrencySelection.DataOf | src/navigation/wallet/screens/CurrencySelection.tsx:264-267 | Token data comes from the supported currencies first, then app data, then custom data; absent only when all three lack the key |
| CurrencySelection.CoinCurrency | src/navigation/wallet/screens/CurrencySelection.tsx:222-235 | A coin row starts unselected, not a token, with the lower-cased abbreviation as chain |
| CurrencySelection.ChainIndex | src/navigation/wallet/screens/CurrencySelection.tsx:218-243 | `chainMap` maps a chain to the last coin with that lower-cased abbreviation, or to none |
| CurrencySelection.OrphanWithoutLogoThrows | src/navigation/wallet/screens/CurrencySelection.tsx:282 | As written, the image expression throws exactly for a token with no logo and no parent chain |
| CurrencySelection.TokenImg | src/navigation/wallet/screens/CurrencySelection.tsx:282 | The logo if any, else the chain's image if there is a chain, else empty; agrees with the written expression wherever that does not throw |
| CurrencySelection.OtherChainTokenThrows | src/navigation/wallet/screens/CurrencySelection.tsx:297-299 | As written, the popularity check throws exactly for chains other than eth and matic |
| CurrencySelection.IsPopular | src/navigation/wallet/screens/CurrencySelection.tsx:126-129 | Popular only on eth or matic for usdc, busd or ape; agrees with the written check wherever that does not throw |
| CurrencySelection.TokenItem | src/navigation/wallet/screens/CurrencySelection.tsx:278-288 | A token row: its key as id, a token, unselected, with its data's lower-cased chain |
| CurrencySelection.IndexCoins | src/navigation/wallet/screens/CurrencySelection.tsx:218-243 | One token-less row per supported coin, in order, and `chainMap` taking each lower-cased abbreviation to the last coin that has it |
| CurrencySelection.BuildList | src/navigation/wallet/screens/CurrencySelection.tsx:218-313 | One row per coin carrying the tokens of its chain (and the popular ones), then one row per token whose chain has no coin |
| CurrencySelection.AddToken | src/navigation/wallet/screens/CurrencySelection.tsx:252-312 | One `forEach` step: skip, attach to the chain's row (and its popular tokens when popular), or append a row |
| CurrencySelection.TokensAtExactly | src/navigation/wallet/screens/CurrencySelection.tsx:252-303 | A coin carries a token if and only if its key was visited, is not `pax`, has token data, and its chain maps to that coin |
| CurrencySelection.OrphansExactly | src/navigation/wallet/screens/CurrencySelection.tsx:304-311 | The appended rows are exactly the accepted tokens whose chain has no coin, each without tokens |
| CurrencySelection.PopularOfExactly | src/navigation/wallet/screens/CurrencySelection.tsx:290-300 | The popular tokens are exactly the popular ones among the tokens |
| CurrencySelection.PopularOfStep | src/navigation/wallet/screens/CurrencySelection.tsx:290-300 | Each visited token is appended to the popular tokens exactly when it is popular, so they keep visiting order |
| CurrencySelection.MultisigOptions | src/navigation/wallet/screens/CurrencySelection.tsx:116-119 | Exactly the supported currency options that support multisig, and no more of them |
| CurrencySelection.MultisigOptionsAppend | src/navigation/wallet/screens/CurrencySelection.tsx:116-119 | The multisig filter works option by option and keeps order |
| CurrencySelection.MultisigRow | src/navigation/wallet/screens/CurrencySelection.tsx:199-209 | A multisig row takes id, abbreviation, name and image from its option, is unselected and not a token, has its abbreviation as chain, and has no tokens |
| CurrencySelection.MultisigItems | src/navigation/wallet/screens/CurrencySelection.tsx:197-216 | For a multisig wallet, row i is the row of the i-th multisig option: one unselected, token-less row per such option, in order |
| CurrencySelection.BuiltListUnselected | src/navigation/wallet/screens/CurrencySelection.tsx:218-313 | Nothing is selected in a freshly built list |
| CurrencySelection.InitListItems | src/navigation/wallet/screens/CurrencySelection.tsx:196-322 | The multisig list for a multisig wallet, otherwise the built list; either way nothing is selected |
| CurrencySelection.ModeOf | src/navigation/wallet/screens/CurrencySelection.tsx:370-487 | Multi selection exactly when onboarding or creating a key |
| CurrencySelection.FindToken | src/navigation/wallet/screens/CurrencySelection.tsx:543-546 | The token at the first index with the abbreviation; none if no token has it |
| CurrencySelection.ToggleItem | src/navigation/wallet/screens/CurrencySelection.tsx:541-695 | Updates one item field by field as `onToggle`'s callback does, ending in the specification's toggled item |
| CurrencySelection.OnToggle | src/navigation/wallet/screens/CurrencySelection.tsx:539-698 | Every item of the list toggled |
| CurrencySelection.DeselectAllUnselected | src/navigation/wallet/screens/CurrencySelection.tsx:619-630 | Deselecting a list with nothing selected changes nothing |
| CurrencySelection.FindTokenAt | src/navigation/wallet/screens/CurrencySelection.tsx:543-546 | With distinct abbreviations, the token found is the one at its index |
| CurrencySelection.MultiTogglesToken | src/navigation/wallet/screens/CurrencySelection.tsx:569-603 | Multi mode: toggling a token replaces every token with that abbreviation by the flipped first match and leaves the others, puts the flipped token among the popular ones in place of every popular token with that abbreviation, keeping the rest and adding nothing else, and selects its chain |
| CurrencySelection.MultiTogglesCurrency | src/navigation/wallet/screens/CurrencySelection.tsx:552-567 | Multi mode: a selected chain with selected tokens is not deselected, otherwise its flag flips; items on other chains are unchanged |
| CurrencySelection.SingleKeepsSelectedCurrency | src/navigation/wallet/screens/CurrencySelection.tsx:609-612 | Single mode: toggling a selected currency leaves its item as it is |
| CurrencySelection.SingleKeepsSelectedToken | src/navigation/wallet/screens/CurrencySelection.tsx:609-646 | Single mode: toggling a token whose first match is selected leaves the tokens as they are, unless the abbreviation is also the currency's and the currency is unselected, in which case they are all deselected |
| CurrencySelection.DeselectAllClears | src/navigation/wallet/screens/CurrencySelection.tsx:680-691 | Nothing is selected after deselecting all |
| CurrencySelection.TokenSelectionsSingle | src/navigation/wallet/screens/CurrencySelection.tsx:356-364 | One selected token yields exactly its entry |
| CurrencySelection.OnlyOneContributes | src/navigation/wallet/screens/CurrencySelection.tsx:342-366 | When only one item has selections, `selectedCurrencies` is that item's entries |
| CurrencySelection.SingleClearsOthers | src/navigation/wallet/screens/CurrencySelection.tsx:632-638 | Single mode: an item on another chain ends with nothing selected |
| CurrencySelection.SingleSelectsOnlyCurrency | src/navigation/wallet/screens/CurrencySelection.tsx:607-693 | Single mode, distinct chains: selecting an unselected currency makes it the only entry of `selectedCurrencies` |
| CurrencySelection.SingleSelectsOnlyToken | src/navigation/wallet/screens/CurrencySelection.tsx:607-693 | Single mode, distinct chains and token abbreviations: selecting an unselected token makes it the only entry, under its chain |
| CurrencySelection.FindItem | src/navigation/wallet/screens/CurrencySelection.tsx:433-443 | The row at the first index whose currency or one of whose tokens has the selected id; none if no row has |
| CurrencySelection.FindTokenById | src/navigation/wallet/screens/CurrencySelection.tsx:455-463 | The token at the first index with the selected id; none if no token has |
| CurrencySelection.AddWalletOutcome | src/navigation/wallet/screens/CurrencySelection.tsx:418-480 | No key: stops. Nothing selected: error. Navigates if and only if some row matches the first selection, and then to a currency or token of that row with that id |
| CurrencySelection.AddWalletTargetsFirstMatch | src/navigation/wallet/screens/CurrencySelection.tsx:429-480 | With a selection, the add-wallet button navigates to the first matching row's currency when its id matches, otherwise to that row's first token with the id |
| CurrencySelection.MultisigAfterSelect | src/navigation/wallet/screens/CurrencySelection.tsx:484-504 | Selecting an unselected currency in single mode, then pressing create, creates a multisig wallet for it |
| CryptoPaymentMethod.DefaultMethods | src/pages/buy-crypto/crypto-payment-method/crypto-payment-method.ts:45-70 | Three methods under their own names; Apple Pay enabled exactly on iOS and never Simplex; credit card never Wyre; cards always enabled; exchange support as given |
| CryptoPaymentMethod.PickEnabled | src/pages/buy-crypto/crypto-payment-method/crypto-payment-method.ts:75 | Exactly the enabled entries, unchanged |
| CryptoPaymentMethod.PickEnabledIdempotent | src/pages/buy-crypto/crypto-payment-method/crypto-payment-method.ts:75 | Filtering twice is filtering once |
| CryptoPaymentMethod.LoadedMethods | src/pages/buy-crypto/crypto-payment-method/crypto-payment-method.ts:45-76 | After loading, Apple Pay is offered only on iOS and both cards always are |
| CryptoPaymentMethod.EnteredSelection | src/pages/buy-crypto/crypto-payment-method/crypto-payment-method.ts:80-81 | An existing selection is kept; otherwise the passed method, else the credit card; never empty |
| CryptoPaymentMethod.EnteredSelectionIsStable | src/pages/buy-crypto/crypto-payment-method/crypto-payment-method.ts:80-81 | Entering again never changes the selection |
| CryptoPaymentMethod.CryptoPaymentMethodPage.Chosen | src/pages/buy-crypto/crypto-payment-method/crypto-payment-method.ts:107 | `methods[methodSelected]`, absent when the table lacks the key; in a valid table the method found is the one the selection names |
| CryptoPaymentMethod.CryptoPaymentMethodPage.constructor | src/pages/buy-crypto/crypto-payment-method/crypto-payment-method.ts:34-71 | The page starts with the default table, nothing selected, no dismissals |
| CryptoPaymentMethod.CryptoPaymentMethodPage.IonViewDidLoad | src/pages/buy-crypto/crypto-payment-method/crypto-payment-method.ts:73-76 | The table becomes its enabled entries; nothing else changes |
| CryptoPaymentMethod.CryptoPaymentMethodPage.IonViewWillEnter | src/pages/buy-crypto/crypto-payment-method/crypto-payment-method.ts:78-82 | Reads `useAsModal`; defaults the selection only when there is none |
| CryptoPaymentMethod.CryptoPaymentMethodPage.GoToOrderSummary | src/pages/buy-crypto/crypto-payment-method/crypto-payment-method.ts:84-94 | Pushes the order summary with the chosen method |
| CryptoPaymentMethod.CryptoPaymentMethodPage.Close | src/pages/buy-crypto/crypto-payment-method/crypto-payment-method.ts:96-98 | Dismisses without data |
| CryptoPaymentMethod.CryptoPaymentMethodPage.Save | src/pages/buy-crypto/crypto-payment-method/crypto-payment-method.ts:100-108 | Dismisses with exactly the chosen method if used as a modal, something is selected, and it differs from the one passed in; otherwise does nothing |
| CryptoPaymentMethod.SaveRightAfterEnterKeepsPassed | src/pages/buy-crypto/crypto-payment-method/crypto-payment-method.ts:78-108 | Saving right after entering with a passed method does not dismiss |
| CryptoPaymentMethod.SaveRightAfterEnterWithoutPassed | src/pages/buy-crypto/crypto-payment-method/crypto-payment-method.ts:78-108 | With nothing passed, saving right after entering dismisses exactly when the page is a modal, and from an empty selection with the credit card |

## Left out

- Logging (`LogActions`, `console.error`, the page logger) is left out: it changes no state this model tracks.
- The `sleep` delays (src/store/app/app.effects.ts:48, 112, 116) are left out: they only delay.
- Segment.Analytics.Init: the drain runs without interruption in the model. In the app, `_client` is set before the drain's `await`s, so a call arriving mid-drain runs at once, ahead of callbacks still queued. The in-order claims hold only for calls queued before `init`.
- The foreign calls (`BitAuth.generateSin`, `BitPayApi.init`, `GraphQlApi.init`, `UserApi.fetchAllUserData`, the wallet/BitPay ID/card store inits, `Dosh.initializeDosh`, `RNBootSplash.hide`, Segment `createClient`, `isExchangeSupported`) are parameters or abstract steps: their code is not part of this model.
- AppEffects.AppStore.Invoke: an outside call is assumed to leave the APP slice unchanged; what the called code dispatches itself is not part of this model.
- `openUrlWithInAppBrowser` (src/store/app/app.effects.ts:125-171) is left out: it is device and browser I/O.
- The onboarding and create-key button (src/navigation/wallet/screens/CurrencySelection.tsx:371-409) is left out: it is built on the key-creation effect, which is not part of this model.
- Translation, headers, row rendering, `description`, `imgSrc`, `disabled` and the navigation targets' screens are left out as UI.
- CurrencySelection.BuildList: the order of `Object.entries` over the merged options is a parameter (`keys`); the model does not derive JavaScript's key order.
- CurrencySelection.OnToggle: items are values. The source mutates the previous state's item objects in place inside `map`; that aliasing is not modelled.
- MultisigAfterSelect assumes the list's chains are distinct (part of `WellFormed`); with two rows on one chain, single mode selects both, which the code does not rule out.
- CurrencySelection.SingleSelectsOnlyCurrency and CurrencySelection.SingleSelectsOnlyToken assume distinct chains, distinct token abbreviations per item, and no token sharing its chain's abbreviation; the code does not check this.
- CurrencySelection.Lower folds ASCII letters only; Unicode case mapping is left out.
- CurrencySelection.AddWalletOutcome: `getCurrencyAbbreviation` is a parameter (`currencyId`), because its code is not part of this model.
- CryptoPaymentMethod.DefaultMethods: labels are the untranslated keys.
- `src/lib/segment/index.ts` `Reply` values: a callback's promise is modelled by its settled outcome only.

## Findings

| source | as written | input that shows it | evidently intended | confidence | as-written member | corrected member |
|---|---|---|---|---|---|---|
| src/navigation/wallet/screens/CurrencySelection.tsx:282 | `tokenOpt.logoURI \|\| chainData.currency.img \|\| ''` reads `chainData.currency` before the `if (chainData)` check at line 290 | a token whose chain has no supported coin (the orphan case of lines 304-311) and whose option has no `logoURI`: the list construction throws a TypeError | the logo, else the chain's image when there is a chain, else empty, so the orphan row is added | high; not executed | CurrencySelection.OrphanWithoutLogoThrows | CurrencySelection.TokenImg |
| src/navigation/wallet/screens/CurrencySelection.tsx:297-299 | `POPULAR_TOKENS[chain].includes(...)` on a chain without an entry | a token whose data chain is a listed coin other than eth or matic (for example `btc`): `includes` is read off `undefined` and the construction throws | such a token is simply not popular | medium; not executed | CurrencySelection.OtherChainTokenThrows | CurrencySelection.IsPopular |
