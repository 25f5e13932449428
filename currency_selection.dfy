/**
 * The selection rules of the wallet's currency-selection screen: the search
 * filter over the list, the `selectedCurrencies` projection, the construction
 * of the list from the supported coins and tokens, the `onToggle` selection
 * state machine in its `multi` and `single` modes, and the add-wallet and
 * multisig buttons' lookups.
 */
module CurrencySelection {
  import opened Wrappers

  /** One selectable row: a chain currency or a token (`CurrencySelectionItem`). */
  datatype SelectionItem = SelectionItem(
    id: string,
    currencyAbbreviation: string,
    currencyName: string,
    img: string,
    selected: bool,
    isToken: bool,
    chain: string)

  /** A chain currency with all its tokens and the popular subset shown by default. */
  datatype ListItem = ListItem(currency: SelectionItem, tokens: seq<SelectionItem>, popularTokens: seq<SelectionItem>)

  /** An entry of `selectedCurrencies`. */
  datatype Selected = Selected(chain: string, currencyAbbreviation: string, isToken: bool)

  // ---------------------------------------------------------------------------
  // Strings
  // ---------------------------------------------------------------------------

  /** `toLowerCase` on one character; only ASCII letters are folded. */
  function LowerChar(c: char): char {
    if 'A' <= c <= 'Z' then (c as int + 32) as char else c
  }

  /** `toLowerCase` on ASCII. */
  function Lower(s: string): (r: string)
    ensures |r| == |s|
    ensures forall i :: 0 <= i < |s| ==> r[i] == LowerChar(s[i])
    ensures forall i :: 0 <= i < |r| ==> !('A' <= r[i] <= 'Z')
  {
    seq(|s|, i requires 0 <= i < |s| => LowerChar(s[i]))
  }

  /** Lower-casing twice is lower-casing once. */
  lemma LowerIdempotent(s: string)
    ensures Lower(Lower(s)) == Lower(s)
  {
    assert forall i :: 0 <= i < |s| ==> LowerChar(LowerChar(s[i])) == LowerChar(s[i]);
  }

  /** `sub` occurs in `s` starting at position `i`. */
  predicate OccursAt(s: string, sub: string, i: int) {
    0 <= i <= |s| - |sub| && s[i..i + |sub|] == sub
  }

  /** `String.prototype.includes`: `sub` occurs in `s` at some position. */
  predicate Includes(s: string, sub: string) {
    exists i | 0 <= i <= |s| - |sub| :: OccursAt(s, sub, i)
  }

  // ---------------------------------------------------------------------------
  // Search filter (`filteredListItems`)
  // ---------------------------------------------------------------------------

  /** The filter matches an entry's lower-cased abbreviation or name. */
  predicate Matches(c: SelectionItem, filter: string) {
    Includes(Lower(c.currencyAbbreviation), filter) || Includes(Lower(c.currencyName), filter)
  }

  /** The popular tokens the filter matches, in their order (`popularTokens.filter`). */
  function MatchingTokens(tokens: seq<SelectionItem>, filter: string): (r: seq<SelectionItem>)
    ensures |r| <= |tokens|
    ensures forall t :: t in r <==> t in tokens && Matches(t, filter)
    decreases |tokens|
  {
    if tokens == [] then []
    else
      var rest := MatchingTokens(tokens[1..], filter);
      assert forall t :: t in tokens <==> t == tokens[0] || t in tokens[1..];
      if Matches(tokens[0], filter) then [tokens[0]] + rest else rest
  }

  /** The token filter works token by token and keeps their order. */
  lemma {:induction false} MatchingTokensAppend(a: seq<SelectionItem>, b: seq<SelectionItem>, filter: string)
    ensures MatchingTokens(a + b, filter) == MatchingTokens(a, filter) + MatchingTokens(b, filter)
    decreases |a|
  {
    if a == [] {
      assert a + b == b;
    } else {
      assert (a + b)[0] == a[0] && (a + b)[1..] == a[1..] + b;
      MatchingTokensAppend(a[1..], b, filter);
    }
  }

  /** An item is shown if its currency matches or one of its popular tokens does. */
  predicate Shown(item: ListItem, filter: string) {
    Matches(item.currency, filter) || |MatchingTokens(item.popularTokens, filter)| > 0
  }

  /** A shown item, with its popular tokens cut down to the matching ones. */
  function Narrowed(item: ListItem, filter: string): ListItem {
    item.(popularTokens := MatchingTokens(item.popularTokens, filter))
  }

  /** The `reduce` over the list for a non-empty filter. */
  function FilterItems(items: seq<ListItem>, filter: string): seq<ListItem>
    decreases |items|
  {
    if items == [] then []
    else
      var last := items[|items| - 1];
      FilterItems(items[..|items| - 1], filter) + (if Shown(last, filter) then [Narrowed(last, filter)] else [])
  }

  /** `filteredListItems`: the whole list for an empty filter, otherwise the shown items narrowed. */
  function FilteredListItems(items: seq<ListItem>, filter: string): seq<ListItem> {
    if filter == "" then items else FilterItems(items, filter)
  }

  /** The filter works item by item, so it distributes over concatenation and keeps the list's order. */
  lemma {:induction false} FilterItemsAppend(a: seq<ListItem>, b: seq<ListItem>, filter: string)
    ensures FilterItems(a + b, filter) == FilterItems(a, filter) + FilterItems(b, filter)
    decreases |b|
  {
    if b == [] {
      assert a + b == a;
    } else {
      var front := b[..|b| - 1];
      assert (a + b)[..|a + b| - 1] == a + front;
      FilterItemsAppend(a, front, filter);
    }
  }

  /**
   * An item is in the filtered list, narrowed, exactly when it is shown; nothing
   * else is; and the filtered list is no longer than the list.
   */
  lemma {:induction false} FilterItemsSurvivors(items: seq<ListItem>, filter: string)
    ensures |FilterItems(items, filter)| <= |items|
    ensures forall item :: item in items && Shown(item, filter) ==> Narrowed(item, filter) in FilterItems(items, filter)
    ensures forall r :: r in FilterItems(items, filter) ==>
      exists item :: item in items && Shown(item, filter) && r == Narrowed(item, filter)
    decreases |items|
  {
    if items != [] {
      var front := items[..|items| - 1];
      FilterItemsSurvivors(front, filter);
      assert forall item :: item in items ==> item in front || item == items[|items| - 1];
      assert forall item :: item in front ==> item in items;
    }
  }

  /** With an empty filter the list is returned unchanged. */
  lemma EmptyFilterKeepsList(items: seq<ListItem>)
    ensures FilteredListItems(items, "") == items
  {
  }

  /** A non-empty filter is the reduce; its matching popular tokens are exactly those the filter matches. */
  lemma FilterNarrowsPopular(items: seq<ListItem>, filter: string)
    requires filter != ""
    ensures forall r :: r in FilteredListItems(items, filter) ==>
      forall t :: t in r.popularTokens ==> Matches(t, filter)
  {
    FilterItemsSurvivors(items, filter);
  }

  // ---------------------------------------------------------------------------
  // `selectedCurrencies`
  // ---------------------------------------------------------------------------

  /** The selected tokens of one item, each recorded under the item's chain. */
  function TokenSelections(chain: string, tokens: seq<SelectionItem>): seq<Selected>
    decreases |tokens|
  {
    if tokens == [] then []
    else
      (if tokens[0].selected then [Selected(chain, Lower(tokens[0].currencyAbbreviation), true)] else [])
      + TokenSelections(chain, tokens[1..])
  }

  /** One item's contribution: its currency if selected, then its selected tokens. */
  function ItemSelections(item: ListItem): seq<Selected> {
    var chain := Lower(item.currency.currencyAbbreviation);
    (if item.currency.selected then [Selected(chain, chain, false)] else [])
    + TokenSelections(chain, item.tokens)
  }

  /** The `reduce` behind `selectedCurrencies`, over the list in order. */
  function SelectedCurrencies(items: seq<ListItem>): seq<Selected>
    decreases |items|
  {
    if items == [] then []
    else SelectedCurrencies(items[..|items| - 1]) + ItemSelections(items[|items| - 1])
  }

  /** Predicate: nothing in the item is selected (currency or any token). */
  predicate NothingSelected(item: ListItem) {
    !item.currency.selected && forall t :: t in item.tokens ==> !t.selected
  }

  /** The selected tokens are recorded exactly when some token is selected, each a lower-cased token. */
  lemma {:induction false} TokenSelectionsFacts(chain: string, tokens: seq<SelectionItem>)
    ensures TokenSelections(chain, tokens) == [] <==> forall t :: t in tokens ==> !t.selected
    ensures forall e :: e in TokenSelections(chain, tokens) ==>
      e.chain == chain && e.isToken && exists t :: t in tokens && t.selected && e.currencyAbbreviation == Lower(t.currencyAbbreviation)
    ensures forall t :: t in tokens && t.selected ==> Selected(chain, Lower(t.currencyAbbreviation), true) in TokenSelections(chain, tokens)
    decreases |tokens|
  {
    if tokens != [] {
      TokenSelectionsFacts(chain, tokens[1..]);
      assert forall t :: t in tokens <==> t == tokens[0] || t in tokens[1..];
    }
  }

  /** `selectedCurrencies` distributes over concatenation, so it lists entries in list order. */
  lemma {:induction false} SelectedCurrenciesAppend(a: seq<ListItem>, b: seq<ListItem>)
    ensures SelectedCurrencies(a + b) == SelectedCurrencies(a) + SelectedCurrencies(b)
    decreases |b|
  {
    if b == [] {
      assert a + b == a;
    } else {
      var front := b[..|b| - 1];
      assert (a + b)[..|a + b| - 1] == a + front;
      SelectedCurrenciesAppend(a, front);
    }
  }

  /**
   * `selectedCurrencies` is empty exactly when nothing is selected; every entry
   * carries the lower-cased abbreviation of its item's chain currency as its chain,
   * and is that currency itself or one of its selected tokens.
   */
  lemma {:induction false} SelectedCurrenciesFacts(items: seq<ListItem>)
    ensures SelectedCurrencies(items) == [] <==> forall item :: item in items ==> NothingSelected(item)
    ensures forall e :: e in SelectedCurrencies(items) ==>
      exists item :: item in items && e.chain == Lower(item.currency.currencyAbbreviation) &&
        if e.isToken then exists t :: t in item.tokens && t.selected && e.currencyAbbreviation == Lower(t.currencyAbbreviation)
        else item.currency.selected && e.currencyAbbreviation == e.chain
    decreases |items|
  {
    if items != [] {
      var front, last := items[..|items| - 1], items[|items| - 1];
      SelectedCurrenciesFacts(front);
      TokenSelectionsFacts(Lower(last.currency.currencyAbbreviation), last.tokens);
      assert ItemSelections(last) == [] <==> NothingSelected(last);
      assert forall item :: item in items <==> item in front || item == last;
    }
  }

  // ---------------------------------------------------------------------------
  // List construction (the `useEffect` that fills `allListItems`)
  // ---------------------------------------------------------------------------

  /** The screen's context: how it was opened. */
  datatype Context = Onboarding | CreateNewKey | AddWallet | AddWalletMultisig

  /** A supported chain currency (an entry of the supported-coin or supported-currency options). */
  datatype CoinOption = CoinOption(id: string, currencyAbbreviation: string, currencyName: string, img: string, hasMultisig: bool)

  /** A token option; an empty `logoURI` stands for a missing one. */
  datatype TokenOpt = TokenOpt(symbol: string, name: string, logoURI: string)

  /** A token-data entry: the chain the token lives on. */
  datatype TokenData = TokenData(chain: string)

  /**
   * What the list is built from: the supported coins, the merged token options,
   * and the three token-data maps consulted in order. `tokenOptions` stands for
   * `MergedTokenOptions(supported, app, custom)` of the three option maps.
   */
  datatype Catalog = Catalog(
    coins: seq<CoinOption>,
    tokenOptions: map<string, TokenOpt>,
    supportedCurrencies: map<string, TokenData>,
    appTokenData: map<string, TokenData>,
    customTokenData: map<string, TokenData>)

  /** The object spread of the supported, app and custom token options: later sources win. */
  function MergedTokenOptions(supported: map<string, TokenOpt>, app: map<string, TokenOpt>, custom: map<string, TokenOpt>): (r: map<string, TokenOpt>)
    ensures r.Keys == supported.Keys + app.Keys + custom.Keys
    ensures forall k :: k in r ==>
      r[k] == if k in custom then custom[k] else if k in app then app[k] else supported[k]
  {
    supported + app + custom
  }

  /** The popular token symbols per chain. */
  const PopularTokens: map<string, seq<string>> := map["eth" := ["usdc", "busd", "ape"], "matic" := ["usdc", "busd", "ape"]]

  /** The first token-data entry that has the key: supported currencies, then app data, then custom data. */
  function DataOf(c: Catalog, k: string): (r: Option<TokenData>)
    ensures r.None? <==> k !in c.supportedCurrencies && k !in c.appTokenData && k !in c.customTokenData
    ensures k in c.supportedCurrencies ==> r == Some(c.supportedCurrencies[k])
    ensures k !in c.supportedCurrencies && k in c.appTokenData ==> r == Some(c.appTokenData[k])
    ensures k !in c.supportedCurrencies && k !in c.appTokenData && k in c.customTokenData ==> r == Some(c.customTokenData[k])
  {
    if k in c.supportedCurrencies then Some(c.supportedCurrencies[k])
    else if k in c.appTokenData then Some(c.appTokenData[k])
    else if k in c.customTokenData then Some(c.customTokenData[k])
    else None
  }

  /** A token key that is listed: not `pax`, and with token data somewhere. */
  predicate Accepted(c: Catalog, k: string) {
    k != "pax" && DataOf(c, k).Some?
  }

  /** The lower-cased chain of an accepted token. */
  function ChainOf(c: Catalog, k: string): string
    requires Accepted(c, k)
  {
    Lower(DataOf(c, k).value.chain)
  }

  /** A chain currency's row: unselected, its chain the lower-cased abbreviation. */
  function CoinCurrency(coin: CoinOption): (r: SelectionItem)
    ensures !r.selected && !r.isToken && r.chain == Lower(coin.currencyAbbreviation) && r.id == coin.id
  {
    SelectionItem(coin.id, coin.currencyAbbreviation, coin.currencyName, coin.img, false, false, Lower(coin.currencyAbbreviation))
  }

  /** The index `chainMap` holds for a chain: the last coin with that lower-cased abbreviation. */
  function ChainIndex(coins: seq<CoinOption>, chain: string): (r: Option<nat>)
    ensures r.Some? ==>
      && r.value < |coins|
      && Lower(coins[r.value].currencyAbbreviation) == chain
      && forall j :: r.value < j < |coins| ==> Lower(coins[j].currencyAbbreviation) != chain
    ensures r.None? ==> forall j :: 0 <= j < |coins| ==> Lower(coins[j].currencyAbbreviation) != chain
    decreases |coins|
  {
    if coins == [] then None
    else if Lower(coins[|coins| - 1].currencyAbbreviation) == chain then Some(|coins| - 1)
    else ChainIndex(coins[..|coins| - 1], chain)
  }

  /**
   * The token's image as written: the logo, else the parent chain's image, else
   * empty; `None` stands for the TypeError raised when there is no logo and no
   * parent chain (the parent's `currency` is read off `undefined`).
   */
  function TokenImgAsWritten(logoURI: string, chainImg: Option<string>): Option<string> {
    if logoURI != "" then Some(logoURI)
    else if chainImg.None? then None
    else Some(chainImg.value)
  }

  /** A token without a logo and without a parent chain makes the list construction throw. */
  lemma OrphanWithoutLogoThrows()
    ensures TokenImgAsWritten("", None) == None
    ensures forall logo, img :: TokenImgAsWritten(logo, img).None? <==> logo == "" && img.None?
  {
  }

  /** The token's image: the logo, else the parent chain's image when there is a parent, else empty. */
  function TokenImg(logoURI: string, chainImg: Option<string>): (r: string)
    ensures logoURI != "" ==> r == logoURI
    ensures logoURI == "" && chainImg.None? ==> r == ""
    ensures TokenImgAsWritten(logoURI, chainImg).Some? ==> r == TokenImgAsWritten(logoURI, chainImg).value
  {
    if logoURI != "" then logoURI
    else if chainImg.Some? then chainImg.value
    else ""
  }

  /**
   * Popularity as written: `None` stands for the TypeError raised when the chain
   * has no entry in the popular-token table (`includes` on `undefined`).
   */
  function PopularAsWritten(chain: string, symbol: string): Option<bool> {
    if chain in PopularTokens then Some(Lower(symbol) in PopularTokens[chain]) else None
  }

  /** A token on a listed chain other than eth or matic makes the list construction throw. */
  lemma OtherChainTokenThrows()
    ensures PopularAsWritten("btc", "WBTC") == None
    ensures forall chain, symbol :: PopularAsWritten(chain, symbol).None? <==> chain != "eth" && chain != "matic"
  {
  }

  /** A token is popular when its lower-cased symbol is in its chain's popular list; no list means not popular. */
  function IsPopular(chain: string, symbol: string): (r: bool)
    ensures r ==> chain in {"eth", "matic"} && Lower(symbol) in ["usdc", "busd", "ape"]
    ensures PopularAsWritten(chain, symbol).Some? ==> r == PopularAsWritten(chain, symbol).value
  {
    chain in PopularTokens && Lower(symbol) in PopularTokens[chain]
  }

  /** The row of an accepted token, given the parent chain's image if the chain is listed. */
  function TokenItem(c: Catalog, k: string, chainImg: Option<string>): (r: SelectionItem)
    requires Accepted(c, k) && k in c.tokenOptions
    ensures r.id == k && r.isToken && !r.selected && r.chain == ChainOf(c, k)
  {
    var opt := c.tokenOptions[k];
    SelectionItem(k, opt.symbol, opt.name, TokenImg(opt.logoURI, chainImg), false, true, ChainOf(c, k))
  }

  /** The keys must all name a token option (they are its entries). */
  predicate KeysListed(c: Catalog, keys: seq<string>) {
    forall k :: k in keys ==> k in c.tokenOptions
  }

  /** The tokens attached to coin `i` after visiting `keys`, in visiting order. */
  function TokensAt(c: Catalog, keys: seq<string>, i: nat): seq<SelectionItem>
    requires KeysListed(c, keys) && i < |c.coins|
    decreases |keys|
  {
    if keys == [] then []
    else
      var k := keys[|keys| - 1];
      TokensAt(c, keys[..|keys| - 1], i)
      + (if Accepted(c, k) && ChainIndex(c.coins, ChainOf(c, k)) == Some(i)
         then [TokenItem(c, k, Some(c.coins[i].img))] else [])
  }

  /** The top-level rows of accepted tokens whose chain is not listed, in visiting order. */
  function Orphans(c: Catalog, keys: seq<string>): seq<ListItem>
    requires KeysListed(c, keys)
    decreases |keys|
  {
    if keys == [] then []
    else
      var k := keys[|keys| - 1];
      Orphans(c, keys[..|keys| - 1])
      + (if Accepted(c, k) && ChainIndex(c.coins, ChainOf(c, k)).None?
         then [ListItem(TokenItem(c, k, None), [], [])] else [])
  }

  /** The popular subset of a token list, in order. */
  function PopularOf(tokens: seq<SelectionItem>): seq<SelectionItem>
    decreases |tokens|
  {
    if tokens == [] then []
    else
      var last := tokens[|tokens| - 1];
      PopularOf(tokens[..|tokens| - 1]) + (if IsPopular(last.chain, last.currencyAbbreviation) then [last] else [])
  }

  /** The row of coin `i` after visiting `keys`. */
  function CoinRow(c: Catalog, keys: seq<string>, i: nat): ListItem
    requires KeysListed(c, keys) && i < |c.coins|
  {
    ListItem(CoinCurrency(c.coins[i]), TokensAt(c, keys, i), PopularOf(TokensAt(c, keys, i)))
  }

  /**
   * Builds the list: one row per supported coin, recorded in `chainMap` by its
   * lower-cased abbreviation; then, for each token key in order, skips `pax` and
   * keys with no token data, and either attaches the token to its chain's row
   * (and to its popular tokens when popular) or appends it as a row of its own.
   */
  method BuildList(c: Catalog, keys: seq<string>) returns (list: seq<ListItem>)
    requires KeysListed(c, keys)
    ensures |list| == |c.coins| + |Orphans(c, keys)|
    ensures forall i :: 0 <= i < |c.coins| ==> list[i] == CoinRow(c, keys, i)
    ensures list[|c.coins|..] == Orphans(c, keys)
  {
    var chainMap;
    list, chainMap := IndexCoins(c);
    var j := 0;
    while j < |keys|
      invariant 0 <= j <= |keys|
      invariant |list| == |c.coins| + |Orphans(c, keys[..j])|
      invariant forall m :: 0 <= m < |c.coins| ==> list[m] == CoinRow(c, keys[..j], m)
      invariant list[|c.coins|..] == Orphans(c, keys[..j])
    {
      var k := keys[j];
      assert keys[..j + 1][..j] == keys[..j];
      list := AddToken(c, keys[..j], k, chainMap, list);
      j := j + 1;
    }
    assert keys[..j] == keys;
  }

  /** The coin rows, without tokens, and `chainMap` from each lower-cased abbreviation to its last coin. */
  method IndexCoins(c: Catalog) returns (list: seq<ListItem>, chainMap: map<string, nat>)
    ensures |list| == |c.coins|
    ensures forall m :: 0 <= m < |c.coins| ==> list[m] == ListItem(CoinCurrency(c.coins[m]), [], [])
    ensures forall ch :: ChainIndex(c.coins, ch) == (if ch in chainMap then Some(chainMap[ch]) else None)
  {
    chainMap := map[];
    list := [];
    var i := 0;
    while i < |c.coins|
      invariant 0 <= i <= |c.coins|
      invariant |list| == i
      invariant forall m :: 0 <= m < i ==> list[m] == ListItem(CoinCurrency(c.coins[m]), [], [])
      invariant forall ch :: ChainIndex(c.coins[..i], ch) == (if ch in chainMap then Some(chainMap[ch]) else None)
    {
      var coin := c.coins[i];
      assert c.coins[..i + 1][..i] == c.coins[..i];
      chainMap := chainMap[Lower(coin.currencyAbbreviation) := i];
      list := list + [ListItem(CoinCurrency(coin), [], [])];
      i := i + 1;
    }
    assert c.coins[..i] == c.coins;
  }

  /** One step of the token loop: visits key `k` after `done`. */
  method AddToken(c: Catalog, done: seq<string>, k: string, chainMap: map<string, nat>, list: seq<ListItem>)
    returns (r: seq<ListItem>)
    requires KeysListed(c, done + [k])
    requires forall ch :: ChainIndex(c.coins, ch) == (if ch in chainMap then Some(chainMap[ch]) else None)
    requires |list| == |c.coins| + |Orphans(c, done)|
    requires forall m :: 0 <= m < |c.coins| ==> list[m] == CoinRow(c, done, m)
    requires list[|c.coins|..] == Orphans(c, done)
    ensures |r| == |c.coins| + |Orphans(c, done + [k])|
    ensures forall m :: 0 <= m < |c.coins| ==> r[m] == CoinRow(c, done + [k], m)
    ensures r[|c.coins|..] == Orphans(c, done + [k])
  {
    OrphansStep(c, done, k);
    CoinRowsUnchanged(c, done, k);
    if !Accepted(c, k) {
      return list;
    }
    var data := DataOf(c, k).value;
    var chain := Lower(data.chain);
    if chain in chainMap {
      var idx := chainMap[chain];
      var row := list[idx];
      var token := TokenItem(c, k, Some(row.currency.img));
      var popular := if IsPopular(chain, token.currencyAbbreviation) then row.popularTokens + [token] else row.popularTokens;
      CoinRowAttached(c, done, k, idx);
      r := list[idx := row.(tokens := row.tokens + [token], popularTokens := popular)];
      assert r[|c.coins|..] == list[|c.coins|..];
    } else {
      var token := TokenItem(c, k, None);
      r := list + [ListItem(token, [], [])];
      assert r[|c.coins|..] == list[|c.coins|..] + [ListItem(token, [], [])];
    }
  }

  /** The rows of coins other than the visited token's chain are untouched by the visit. */
  lemma CoinRowsUnchanged(c: Catalog, done: seq<string>, k: string)
    requires KeysListed(c, done + [k])
    ensures KeysListed(c, done)
    ensures forall m :: 0 <= m < |c.coins| && !(Accepted(c, k) && ChainIndex(c.coins, ChainOf(c, k)) == Some(m)) ==>
      CoinRow(c, done + [k], m) == CoinRow(c, done, m)
  {
    forall m | 0 <= m < |c.coins| && !(Accepted(c, k) && ChainIndex(c.coins, ChainOf(c, k)) == Some(m))
      ensures CoinRow(c, done + [k], m) == CoinRow(c, done, m)
    {
      TokensAtStep(c, done, k, m);
      assert TokensAt(c, done + [k], m) == TokensAt(c, done, m);
    }
  }

  /** The row of the visited token's chain gains the token, and gains it among the popular ones when it is popular. */
  lemma CoinRowAttached(c: Catalog, done: seq<string>, k: string, i: nat)
    requires KeysListed(c, done + [k]) && i < |c.coins|
    requires Accepted(c, k) && ChainIndex(c.coins, ChainOf(c, k)) == Some(i)
    ensures KeysListed(c, done)
    ensures var row := CoinRow(c, done, i);
      var token := TokenItem(c, k, Some(c.coins[i].img));
      CoinRow(c, done + [k], i) == row.(tokens := row.tokens + [token],
        popularTokens := if IsPopular(token.chain, token.currencyAbbreviation) then row.popularTokens + [token] else row.popularTokens)
  {
    TokensAtStep(c, done, k, i);
    PopularOfStep(TokensAt(c, done, i), TokenItem(c, k, Some(c.coins[i].img)));
  }

  /** Visiting one more key attaches at most that key's token to a coin's row. */
  lemma TokensAtStep(c: Catalog, done: seq<string>, k: string, m: nat)
    requires KeysListed(c, done + [k]) && m < |c.coins|
    ensures KeysListed(c, done)
    ensures TokensAt(c, done + [k], m) == TokensAt(c, done, m)
      + (if Accepted(c, k) && ChainIndex(c.coins, ChainOf(c, k)) == Some(m) then [TokenItem(c, k, Some(c.coins[m].img))] else [])
  {
    assert (done + [k])[..|done|] == done;
  }

  /** Visiting one more key appends at most that key's row. */
  lemma OrphansStep(c: Catalog, done: seq<string>, k: string)
    requires KeysListed(c, done + [k])
    ensures KeysListed(c, done)
    ensures Orphans(c, done + [k]) == Orphans(c, done)
      + (if Accepted(c, k) && ChainIndex(c.coins, ChainOf(c, k)).None? then [ListItem(TokenItem(c, k, None), [], [])] else [])
  {
    assert (done + [k])[..|done|] == done;
  }

  /** Appending a token appends it to the popular ones exactly when it is popular. */
  lemma PopularOfStep(tokens: seq<SelectionItem>, t: SelectionItem)
    ensures PopularOf(tokens + [t]) == PopularOf(tokens) + (if IsPopular(t.chain, t.currencyAbbreviation) then [t] else [])
  {
    assert (tokens + [t])[..|tokens|] == tokens;
  }


  /**
   * Coin `i` carries exactly the listed tokens whose chain is that coin's: a
   * token is attached to it if and only if its key was visited, is accepted
   * (so never `pax`, always with token data), and its chain maps to `i`.
   */
  lemma {:induction false} TokensAtExactly(c: Catalog, keys: seq<string>, i: nat)
    requires KeysListed(c, keys) && i < |c.coins|
    ensures forall t :: t in TokensAt(c, keys, i) ==>
      && t.id in keys && Accepted(c, t.id) && t.id != "pax"
      && ChainIndex(c.coins, ChainOf(c, t.id)) == Some(i)
      && t == TokenItem(c, t.id, Some(c.coins[i].img))
    ensures forall k :: k in keys && Accepted(c, k) && ChainIndex(c.coins, ChainOf(c, k)) == Some(i) ==>
      TokenItem(c, k, Some(c.coins[i].img)) in TokensAt(c, keys, i)
    decreases |keys|
  {
    if keys != [] {
      var front := keys[..|keys| - 1];
      TokensAtExactly(c, front, i);
      assert forall k :: k in keys <==> k in front || k == keys[|keys| - 1];
    }
  }

  /**
   * The appended rows are exactly the listed tokens whose chain has no row:
   * each is a token row with no tokens of its own.
   */
  lemma {:induction false} OrphansExactly(c: Catalog, keys: seq<string>)
    requires KeysListed(c, keys)
    ensures forall row :: row in Orphans(c, keys) ==>
      && row.currency.id in keys && Accepted(c, row.currency.id) && row.currency.id != "pax"
      && ChainIndex(c.coins, ChainOf(c, row.currency.id)).None?
      && row == ListItem(TokenItem(c, row.currency.id, None), [], [])
    ensures forall k :: k in keys && Accepted(c, k) && ChainIndex(c.coins, ChainOf(c, k)).None? ==>
      ListItem(TokenItem(c, k, None), [], []) in Orphans(c, keys)
    decreases |keys|
  {
    if keys != [] {
      var front := keys[..|keys| - 1];
      OrphansExactly(c, front);
      assert forall k :: k in keys <==> k in front || k == keys[|keys| - 1];
    }
  }

  /** A token is among the popular ones if and only if it is a token and popular on its chain; order is kept. */
  lemma {:induction false} PopularOfExactly(tokens: seq<SelectionItem>)
    ensures |PopularOf(tokens)| <= |tokens|
    ensures forall t :: t in PopularOf(tokens) <==> t in tokens && IsPopular(t.chain, t.currencyAbbreviation)
    decreases |tokens|
  {
    if tokens != [] {
      var front := tokens[..|tokens| - 1];
      PopularOfExactly(front);
      assert forall t :: t in tokens <==> t in front || t == tokens[|tokens| - 1];
    }
  }

  /** `SupportedMultisigCurrencyOptions`: the currency options that support multisig, in order. */
  function MultisigOptions(options: seq<CoinOption>): (r: seq<CoinOption>)
    ensures |r| <= |options|
    ensures forall o :: o in r <==> o in options && o.hasMultisig
    decreases |options|
  {
    if options == [] then []
    else
      assert forall x :: x in options <==> x == options[0] || x in options[1..];
      (if options[0].hasMultisig then [options[0]] else []) + MultisigOptions(options[1..])
  }

  /** The filter keeps the options' order: it distributes over concatenation. */
  lemma {:induction false} MultisigOptionsAppend(a: seq<CoinOption>, b: seq<CoinOption>)
    ensures MultisigOptions(a + b) == MultisigOptions(a) + MultisigOptions(b)
    decreases |a|
  {
    if a != [] {
      assert (a + b)[1..] == a[1..] + b;
      MultisigOptionsAppend(a[1..], b);
    } else {
      assert a + b == b;
    }
  }

  /** The row of a multisig option: the option itself, unselected, its chain the abbreviation as given, no tokens. */
  function MultisigRow(o: CoinOption): (row: ListItem)
    ensures row.currency.id == o.id && row.currency.currencyAbbreviation == o.currencyAbbreviation
    ensures row.currency.currencyName == o.currencyName && row.currency.img == o.img
    ensures !row.currency.selected && !row.currency.isToken && row.currency.chain == o.currencyAbbreviation
    ensures row.tokens == [] && row.popularTokens == []
  {
    ListItem(SelectionItem(o.id, o.currencyAbbreviation, o.currencyName, o.img, false, false, o.currencyAbbreviation), [], [])
  }

  /** The multisig list: one row per multisig option, in the options' order. */
  function MultisigItems(options: seq<CoinOption>): (r: seq<ListItem>)
    ensures |r| == |MultisigOptions(options)|
    ensures forall i :: 0 <= i < |r| ==> r[i] == MultisigRow(MultisigOptions(options)[i])
    ensures forall row :: row in r ==>
      && !row.currency.selected && row.tokens == [] && row.popularTokens == []
      && exists o :: o in options && o.hasMultisig && row == MultisigRow(o)
  {
    var mo := MultisigOptions(options);
    assert forall i :: 0 <= i < |mo| ==> mo[i] in mo;
    seq(|mo|, i requires 0 <= i < |mo| => MultisigRow(mo[i]))
  }

  /** The list the screen starts from: the multisig list for a multisig wallet, otherwise the built list. */
  method InitListItems(context: Context, currencyOptions: seq<CoinOption>, c: Catalog, keys: seq<string>)
    returns (list: seq<ListItem>)
    requires KeysListed(c, keys)
    ensures context == AddWalletMultisig ==> list == MultisigItems(currencyOptions)
    ensures context != AddWalletMultisig ==>
      && |list| == |c.coins| + |Orphans(c, keys)|
      && (forall i :: 0 <= i < |c.coins| ==> list[i] == CoinRow(c, keys, i))
      && list[|c.coins|..] == Orphans(c, keys)
    ensures SelectedCurrencies(list) == []
  {
    if context == AddWalletMultisig {
      list := MultisigItems(currencyOptions);
    } else {
      list := BuildList(c, keys);
      BuiltListUnselected(c, keys, list);
    }
    SelectedCurrenciesFacts(list);
  }

  /** Nothing is selected in a freshly built list. */
  lemma BuiltListUnselected(c: Catalog, keys: seq<string>, list: seq<ListItem>)
    requires KeysListed(c, keys)
    requires |list| == |c.coins| + |Orphans(c, keys)|
    requires forall i :: 0 <= i < |c.coins| ==> list[i] == CoinRow(c, keys, i)
    requires list[|c.coins|..] == Orphans(c, keys)
    ensures forall row :: row in list ==> NothingSelected(row)
  {
    OrphansExactly(c, keys);
    forall row | row in list
      ensures NothingSelected(row)
    {
      var m :| 0 <= m < |list| && list[m] == row;
      if m < |c.coins| {
        TokensAtExactly(c, keys, m);
      } else {
        assert row == list[|c.coins|..][m - |c.coins|];
      }
    }
  }

  // ---------------------------------------------------------------------------
  // `onToggle`
  // ---------------------------------------------------------------------------

  /** How many entries can be selected at once. */
  datatype Mode = Single | Multi

  /** Creating a key selects many currencies; adding a wallet selects one. */
  function ModeOf(context: Context): (m: Mode)
    ensures m == Multi <==> context == Onboarding || context == CreateNewKey
  {
    match context
    case Onboarding => Multi
    case CreateNewKey => Multi
    case AddWallet => Single
    case AddWalletMultisig => Single
  }

  /** The toggled entry is this item's chain currency (an absent `chain` matches nothing). */
  predicate CurrencyMatch(item: ListItem, abbr: string, chain: Option<string>) {
    item.currency.currencyAbbreviation == abbr && chain == Some(item.currency.chain)
  }

  /** Some entry of the list has the abbreviation. */
  predicate HasAbbr(tokens: seq<SelectionItem>, abbr: string) {
    exists t | t in tokens :: t.currencyAbbreviation == abbr
  }

  /** Some entry of the list is selected. */
  predicate HasSelected(tokens: seq<SelectionItem>) {
    exists t | t in tokens :: t.selected
  }

  /** `i` is the index of the first token with the abbreviation. */
  predicate FirstWithAbbr(tokens: seq<SelectionItem>, abbr: string, i: int) {
    && 0 <= i < |tokens|
    && tokens[i].currencyAbbreviation == abbr
    && forall j :: 0 <= j < i ==> tokens[j].currencyAbbreviation != abbr
  }

  /** `tokens.find` by abbreviation: the first token with it. */
  function FindToken(tokens: seq<SelectionItem>, abbr: string): (r: Option<SelectionItem>)
    ensures r.Some? ==> r.value in tokens && r.value.currencyAbbreviation == abbr
    ensures r.None? <==> !HasAbbr(tokens, abbr)
    ensures forall i :: FirstWithAbbr(tokens, abbr, i) ==> r == Some(tokens[i])
    decreases |tokens|
  {
    if tokens == [] then None
    else if tokens[0].currencyAbbreviation == abbr then Some(tokens[0])
    else
      assert forall t :: t in tokens <==> t == tokens[0] || t in tokens[1..];
      FindToken(tokens[1..], abbr)
  }

  /** The item's token the toggle targets, when the chain is this item's. */
  function TokenMatch(item: ListItem, abbr: string, chain: Option<string>): Option<SelectionItem> {
    if chain == Some(item.currency.chain) then FindToken(item.tokens, abbr) else None
  }

  /** Every entry with the abbreviation becomes `updated`; the others stay. */
  function Replace(tokens: seq<SelectionItem>, abbr: string, updated: SelectionItem): seq<SelectionItem> {
    seq(|tokens|, k requires 0 <= k < |tokens| => if tokens[k].currencyAbbreviation == abbr then updated else tokens[k])
  }

  /** Every entry deselected. */
  function DeselectAll(tokens: seq<SelectionItem>): seq<SelectionItem> {
    seq(|tokens|, k requires 0 <= k < |tokens| => tokens[k].(selected := false))
  }

  /** Deselecting a list with nothing selected leaves it as it is. */
  lemma DeselectAllUnselected(tokens: seq<SelectionItem>)
    requires !HasSelected(tokens)
    ensures DeselectAll(tokens) == tokens
  {
    assert forall k :: 0 <= k < |tokens| ==> tokens[k] in tokens && DeselectAll(tokens)[k] == tokens[k];
  }

  /** Every entry with the abbreviation becomes `updated`; the others are deselected. */
  function ReplaceDeselect(tokens: seq<SelectionItem>, abbr: string, updated: SelectionItem): seq<SelectionItem> {
    seq(|tokens|, k requires 0 <= k < |tokens| =>
      if tokens[k].currencyAbbreviation == abbr then updated else tokens[k].(selected := false))
  }

  /** `updated` appended unless an entry with the abbreviation was there. */
  function AppendIfAbsent(popular: seq<SelectionItem>, abbr: string, updated: SelectionItem): seq<SelectionItem> {
    if HasAbbr(popular, abbr) then [] else [updated]
  }

  /** The toggled token with its flag flipped. */
  function Flipped(t: SelectionItem): SelectionItem {
    t.(selected := !t.selected)
  }

  /** Multi mode on one item: flip the currency unless it keeps selected tokens; flip the token and select its chain. */
  function MultiToggled(item: ListItem, abbr: string, chain: Option<string>): ListItem {
    var currency :=
      if CurrencyMatch(item, abbr, chain) && !(item.currency.selected && HasSelected(item.tokens))
      then Flipped(item.currency) else item.currency;
    match TokenMatch(item, abbr, chain)
    case None => item.(currency := currency)
    case Some(t) =>
      ListItem(currency.(selected := true),
               Replace(item.tokens, abbr, Flipped(t)),
               Replace(item.popularTokens, abbr, Flipped(t)) + AppendIfAbsent(item.popularTokens, abbr, Flipped(t)))
  }

  /**
   * Single mode on one item: a selected target is left as it is; selecting a
   * currency deselects its tokens; selecting a token deselects the other tokens;
   * every other item is deselected.
   */
  function SingleToggled(item: ListItem, abbr: string, chain: Option<string>): ListItem {
    var cm := CurrencyMatch(item, abbr, chain);
    if cm && item.currency.selected then item
    else
      var first :=
        if cm then ListItem(Flipped(item.currency), DeselectAll(item.tokens), DeselectAll(item.popularTokens))
        else item.(currency := item.currency.(selected := false));
      match TokenMatch(item, abbr, chain)
      case Some(t) =>
        if t.selected then first
        else
          ListItem(first.currency,
                   ReplaceDeselect(first.tokens, abbr, Flipped(t)),
                   ReplaceDeselect(first.popularTokens, abbr, Flipped(t)) + AppendIfAbsent(first.popularTokens, abbr, Flipped(t)))
      case None =>
        if !cm && chain != Some(item.currency.chain) && |item.tokens| > 0
        then first.(tokens := DeselectAll(first.tokens), popularTokens := DeselectAll(first.popularTokens))
        else first
  }

  /** The item after a toggle in the given mode. */
  function Toggled(item: ListItem, abbr: string, chain: Option<string>, mode: Mode): ListItem {
    if mode == Multi then MultiToggled(item, abbr, chain) else SingleToggled(item, abbr, chain)
  }

  /** The list after a toggle: every item toggled. */
  function ToggledList(items: seq<ListItem>, abbr: string, chain: Option<string>, mode: Mode): seq<ListItem> {
    seq(|items|, k requires 0 <= k < |items| => Toggled(items[k], abbr, chain, mode))
  }

  /** The body of the `map` callback in `onToggle`, updating the item field by field. */
  method ToggleItem(previous: ListItem, abbr: string, chain: Option<string>, mode: Mode) returns (item: ListItem)
    ensures item == Toggled(previous, abbr, chain, mode)
  {
    item := previous;
    var isCurrencyMatch := CurrencyMatch(previous, abbr, chain);
    var tokenMatch := TokenMatch(previous, abbr, chain);
    if mode == Multi {
      if isCurrencyMatch {
        var hasSelectedTokens := HasSelected(item.tokens);
        if !(item.currency.selected && hasSelectedTokens) {
          item := item.(currency := item.currency.(selected := !item.currency.selected));
        }
      }
      if tokenMatch.Some? {
        if !item.currency.selected {
          item := item.(currency := item.currency.(selected := true));
        }
        var updatedToken := tokenMatch.value.(selected := !tokenMatch.value.selected);
        item := item.(tokens := Replace(item.tokens, abbr, updatedToken));
        var appendToPopular := !HasAbbr(item.popularTokens, abbr);
        item := item.(popularTokens := Replace(item.popularTokens, abbr, updatedToken));
        if appendToPopular {
          item := item.(popularTokens := item.popularTokens + [updatedToken]);
        }
      }
    } else {
      if isCurrencyMatch {
        if item.currency.selected {
          return;
        }
        item := item.(currency := item.currency.(selected := !item.currency.selected));
        if HasSelected(item.tokens) {
          item := item.(tokens := DeselectAll(item.tokens));
        } else {
          DeselectAllUnselected(item.tokens);
        }
        if HasSelected(item.popularTokens) {
          item := item.(popularTokens := DeselectAll(item.popularTokens));
        } else {
          DeselectAllUnselected(item.popularTokens);
        }
      } else if item.currency.selected {
        item := item.(currency := item.currency.(selected := false));
      }
      if tokenMatch.Some? {
        if tokenMatch.value.selected {
          return;
        }
        var updatedToken := tokenMatch.value.(selected := !tokenMatch.value.selected);
        item := item.(tokens := ReplaceDeselect(item.tokens, abbr, updatedToken));
        var appendToPopular := !HasAbbr(item.popularTokens, abbr);
        item := item.(popularTokens := ReplaceDeselect(item.popularTokens, abbr, updatedToken));
        if appendToPopular {
          item := item.(popularTokens := item.popularTokens + [updatedToken]);
        }
      }
      if tokenMatch.None? && !isCurrencyMatch && chain != Some(item.currency.chain) && |item.tokens| > 0 {
        item := item.(popularTokens := DeselectAll(item.popularTokens), tokens := DeselectAll(item.tokens));
      }
    }
  }

  /** `onToggle`: the list mapped item by item. */
  method OnToggle(previous: seq<ListItem>, abbr: string, chain: Option<string>, mode: Mode) returns (items: seq<ListItem>)
    ensures items == ToggledList(previous, abbr, chain, mode)
  {
    items := [];
    for k := 0 to |previous|
      invariant items == ToggledList(previous[..k], abbr, chain, mode)
    {
      var item := ToggleItem(previous[k], abbr, chain, mode);
      items := items + [item];
    }
    assert previous[..|previous|] == previous;
  }

  /** No two tokens of a list share an abbreviation. */
  predicate DistinctAbbrs(tokens: seq<SelectionItem>) {
    forall a, b :: 0 <= a < b < |tokens| ==> tokens[a].currencyAbbreviation != tokens[b].currencyAbbreviation
  }

  /**
   * The list shape single mode relies on: chains differ between items, token
   * abbreviations differ within an item, and no token shares its chain
   * currency's abbreviation.
   */
  predicate WellFormed(items: seq<ListItem>) {
    && (forall j, k :: 0 <= j < k < |items| ==> items[j].currency.chain != items[k].currency.chain)
    && (forall j :: 0 <= j < |items| ==> DistinctAbbrs(items[j].tokens))
    && (forall j, t :: 0 <= j < |items| && t in items[j].tokens ==>
          t.currencyAbbreviation != items[j].currency.currencyAbbreviation)
  }

  /** With distinct abbreviations, the token found by abbreviation is the one at its index. */
  lemma FindTokenAt(tokens: seq<SelectionItem>, k: nat)
    requires DistinctAbbrs(tokens) && k < |tokens|
    ensures FindToken(tokens, tokens[k].currencyAbbreviation) == Some(tokens[k])
  {
    var abbr := tokens[k].currencyAbbreviation;
    assert tokens[k] in tokens;
    var t := FindToken(tokens, abbr).value;
    var m :| 0 <= m < |tokens| && tokens[m] == t;
    assert m == k;
  }

  /**
   * Multi mode, toggling a token abbreviation of this item's chain: the first
   * token with it, flipped, replaces every token with that abbreviation, in the
   * tokens and among the popular tokens (appended there if absent); the other
   * tokens stay, nothing else enters the popular tokens, and the chain currency
   * ends up selected.
   */
  lemma MultiTogglesToken(item: ListItem, chain: Option<string>, abbr: string)
    requires chain == Some(item.currency.chain) && HasAbbr(item.tokens, abbr)
    ensures var upd := Flipped(FindToken(item.tokens, abbr).value);
      var r := MultiToggled(item, abbr, chain);
      && r.currency.selected
      && |r.tokens| == |item.tokens|
      && (forall m :: 0 <= m < |item.tokens| && item.tokens[m].currencyAbbreviation == abbr ==> r.tokens[m] == upd)
      && (forall m :: 0 <= m < |item.tokens| && item.tokens[m].currencyAbbreviation != abbr ==> r.tokens[m] == item.tokens[m])
      && upd in r.popularTokens
      && (forall p :: p in item.popularTokens && p.currencyAbbreviation != abbr ==> p in r.popularTokens)
      && (forall p :: p in r.popularTokens ==> p == upd || p in item.popularTokens)
      && (forall p :: p in r.popularTokens && p.currencyAbbreviation == abbr ==> p == upd)
  {
    var upd := Flipped(FindToken(item.tokens, abbr).value);
    var pop := item.popularTokens;
    var replaced := Replace(pop, abbr, upd);
    if HasAbbr(pop, abbr) {
      var p :| p in pop && p.currencyAbbreviation == abbr;
      var m :| 0 <= m < |pop| && pop[m] == p;
      assert replaced[m] == upd;
    }
    forall p | p in pop && p.currencyAbbreviation != abbr
      ensures p in replaced
    {
      var m :| 0 <= m < |pop| && pop[m] == p;
      assert replaced[m] == p;
    }
    forall p | p in replaced
      ensures p == upd || p in pop
      ensures p.currencyAbbreviation == abbr ==> p == upd
    {
      var m :| 0 <= m < |replaced| && replaced[m] == p;
      assert pop[m] in pop;
    }
  }

  /**
   * Multi mode on the toggled chain currency (no token of it has the abbreviation):
   * a selected currency with selected tokens stays as it is; otherwise only its
   * flag flips. An item the toggle does not name is left as it is.
   */
  lemma MultiTogglesCurrency(item: ListItem, abbr: string, chain: Option<string>)
    ensures CurrencyMatch(item, abbr, chain) && !HasAbbr(item.tokens, abbr) ==>
      MultiToggled(item, abbr, chain) ==
        if item.currency.selected && HasSelected(item.tokens) then item
        else item.(currency := Flipped(item.currency))
    ensures chain != Some(item.currency.chain) ==> MultiToggled(item, abbr, chain) == item
  {
  }

  /** Single mode: toggling the chain currency when it is already selected leaves the item as it is. */
  lemma SingleKeepsSelectedCurrency(item: ListItem, chain: Option<string>)
    requires chain == Some(item.currency.chain) && item.currency.selected
    ensures SingleToggled(item, item.currency.currencyAbbreviation, chain) == item
  {
  }

  /**
   * Single mode: toggling a token abbreviation whose first token is already
   * selected leaves the tokens as they are; only when the abbreviation is also
   * the unselected chain currency's is the currency selected first, which
   * deselects every token.
   */
  lemma SingleKeepsSelectedToken(item: ListItem, chain: Option<string>, abbr: string)
    requires chain == Some(item.currency.chain)
    requires HasAbbr(item.tokens, abbr) && FindToken(item.tokens, abbr).value.selected
    ensures SingleToggled(item, abbr, chain).tokens ==
      if abbr == item.currency.currencyAbbreviation && !item.currency.selected then DeselectAll(item.tokens)
      else item.tokens
  {
  }

  /** A deselected list has nothing selected. */
  lemma DeselectAllClears(tokens: seq<SelectionItem>)
    ensures forall t :: t in DeselectAll(tokens) ==> !t.selected
  {
    forall t | t in DeselectAll(tokens)
      ensures !t.selected
    {
      var m :| 0 <= m < |tokens| && DeselectAll(tokens)[m] == t;
    }
  }

  /** A token list with exactly one selected token yields exactly that token's entry. */
  lemma {:induction false} TokenSelectionsSingle(chain: string, tokens: seq<SelectionItem>, k: nat)
    requires k < |tokens| && tokens[k].selected
    requires forall m :: 0 <= m < |tokens| && m != k ==> !tokens[m].selected
    ensures TokenSelections(chain, tokens) == [Selected(chain, Lower(tokens[k].currencyAbbreviation), true)]
    decreases |tokens|
  {
    var rest := tokens[1..];
    if k == 0 {
      assert forall t :: t in rest ==> !t.selected;
      TokenSelectionsFacts(chain, rest);
    } else {
      assert rest[k - 1] == tokens[k];
      TokenSelectionsSingle(chain, rest, k - 1);
    }
  }

  /** When every item but one has nothing selected, `selectedCurrencies` is that item's entries. */
  lemma {:induction false} OnlyOneContributes(items: seq<ListItem>, i: nat)
    requires i < |items|
    requires forall j :: 0 <= j < |items| && j != i ==> NothingSelected(items[j])
    ensures SelectedCurrencies(items) == ItemSelections(items[i])
    decreases |items|
  {
    var front, last := items[..|items| - 1], items[|items| - 1];
    if i == |items| - 1 {
      assert forall item :: item in front ==> NothingSelected(item);
      SelectedCurrenciesFacts(front);
    } else {
      TokenSelectionsFacts(Lower(last.currency.currencyAbbreviation), last.tokens);
      OnlyOneContributes(front, i);
    }
  }

  /** In single mode, every item the toggle does not name ends up with nothing selected. */
  lemma SingleClearsOthers(item: ListItem, abbr: string, chain: Option<string>)
    requires chain != Some(item.currency.chain)
    ensures NothingSelected(SingleToggled(item, abbr, chain))
  {
    DeselectAllClears(item.tokens);
  }

  /** Single mode, selecting an unselected chain currency: it becomes the only selection. */
  lemma SingleSelectsOnlyCurrency(items: seq<ListItem>, i: nat)
    requires WellFormed(items) && i < |items| && !items[i].currency.selected
    ensures var abbr := items[i].currency.currencyAbbreviation;
      var chain := Lower(abbr);
      SelectedCurrencies(ToggledList(items, abbr, Some(items[i].currency.chain), Single)) == [Selected(chain, chain, false)]
  {
    var abbr, chain := items[i].currency.currencyAbbreviation, Some(items[i].currency.chain);
    var r := ToggledList(items, abbr, chain, Single);
    forall j | 0 <= j < |r| && j != i
      ensures NothingSelected(r[j])
    {
      SingleClearsOthers(items[j], abbr, chain);
    }
    OnlyOneContributes(r, i);
    assert !HasAbbr(items[i].tokens, abbr);
    DeselectAllClears(items[i].tokens);
    TokenSelectionsFacts(Lower(abbr), DeselectAll(items[i].tokens));
  }

  /** Single mode, selecting an unselected token: it becomes the only selection, under its chain. */
  lemma SingleSelectsOnlyToken(items: seq<ListItem>, i: nat, k: nat)
    requires WellFormed(items) && i < |items| && k < |items[i].tokens| && !items[i].tokens[k].selected
    ensures var abbr := items[i].tokens[k].currencyAbbreviation;
      SelectedCurrencies(ToggledList(items, abbr, Some(items[i].currency.chain), Single))
        == [Selected(Lower(items[i].currency.currencyAbbreviation), Lower(abbr), true)]
  {
    var item := items[i];
    var abbr, chain := item.tokens[k].currencyAbbreviation, Some(item.currency.chain);
    var r := ToggledList(items, abbr, chain, Single);
    forall j | 0 <= j < |r| && j != i
      ensures NothingSelected(r[j])
    {
      SingleClearsOthers(items[j], abbr, chain);
    }
    OnlyOneContributes(r, i);
    assert item.tokens[k] in item.tokens;
    FindTokenAt(item.tokens, k);
    var ts := r[i].tokens;
    assert ts == ReplaceDeselect(item.tokens, abbr, Flipped(item.tokens[k]));
    TokenSelectionsSingle(Lower(item.currency.currencyAbbreviation), ts, k);
  }

  // ---------------------------------------------------------------------------
  // The add-wallet and multisig buttons
  // ---------------------------------------------------------------------------

  /** What pressing the button does. */
  datatype CtaOutcome =
    | KeyMissing
    | ShowError(message: string)
    | NavigateAddWallet(currencyAbbreviation: string, currencyName: string, isToken: bool, chain: string)
    | NavigateCreateMultisig(currency: string)

  /** The message shown when no usable currency is selected. */
  const SelectCurrency := "Select a currency"

  /** The item matches the selected id by its chain currency or by one of its tokens' ids. */
  predicate Hit(item: ListItem, selectedId: string, currencyId: (string, string) -> string) {
    Lower(item.currency.currencyAbbreviation) == selectedId
    || exists t | t in item.tokens :: currencyId(t.currencyAbbreviation, t.chain) == selectedId
  }

  /** `i` is the index of the first item that matches the selected id. */
  predicate FirstHit(items: seq<ListItem>, selectedId: string, currencyId: (string, string) -> string, i: int) {
    && 0 <= i < |items|
    && Hit(items[i], selectedId, currencyId)
    && forall j :: 0 <= j < i ==> !Hit(items[j], selectedId, currencyId)
  }

  /** `allListItems.find`: the first item that matches the selected id. */
  function FindItem(items: seq<ListItem>, selectedId: string, currencyId: (string, string) -> string): (r: Option<ListItem>)
    ensures r.Some? ==> r.value in items && Hit(r.value, selectedId, currencyId)
    ensures r.None? <==> forall item :: item in items ==> !Hit(item, selectedId, currencyId)
    ensures forall i :: FirstHit(items, selectedId, currencyId, i) ==> r == Some(items[i])
    decreases |items|
  {
    if items == [] then None
    else if Hit(items[0], selectedId, currencyId) then Some(items[0])
    else
      assert forall x :: x in items <==> x == items[0] || x in items[1..];
      assert forall i :: FirstHit(items, selectedId, currencyId, i) ==> FirstHit(items[1..], selectedId, currencyId, i - 1);
      FindItem(items[1..], selectedId, currencyId)
  }

  /** `i` is the index of the first token whose id is the selected id. */
  predicate FirstWithId(tokens: seq<SelectionItem>, selectedId: string, currencyId: (string, string) -> string, i: int) {
    && 0 <= i < |tokens|
    && currencyId(tokens[i].currencyAbbreviation, tokens[i].chain) == selectedId
    && forall j :: 0 <= j < i ==> currencyId(tokens[j].currencyAbbreviation, tokens[j].chain) != selectedId
  }

  /** `item.tokens.find`: the first token whose id is the selected id. */
  function FindTokenById(tokens: seq<SelectionItem>, selectedId: string, currencyId: (string, string) -> string)
    : (r: Option<SelectionItem>)
    ensures r.Some? ==> r.value in tokens && currencyId(r.value.currencyAbbreviation, r.value.chain) == selectedId
    ensures r.None? <==> forall t :: t in tokens ==> currencyId(t.currencyAbbreviation, t.chain) != selectedId
    ensures forall i :: FirstWithId(tokens, selectedId, currencyId, i) ==> r == Some(tokens[i])
    decreases |tokens|
  {
    if tokens == [] then None
    else if currencyId(tokens[0].currencyAbbreviation, tokens[0].chain) == selectedId then Some(tokens[0])
    else
      assert forall x :: x in tokens <==> x == tokens[0] || x in tokens[1..];
      assert forall i :: FirstWithId(tokens, selectedId, currencyId, i) ==> FirstWithId(tokens[1..], selectedId, currencyId, i - 1);
      FindTokenById(tokens[1..], selectedId, currencyId)
  }

  /**
   * The add-wallet button: without a key it stops; with nothing selected, or a
   * selection that matches no row, it shows an error; otherwise it opens the
   * add-wallet screen for the matching currency or token. `currencyId` is the
   * app's rule for a currency's id from its abbreviation and chain.
   */
  function AddWalletAction(hasKey: bool, items: seq<ListItem>, currencyId: (string, string) -> string): CtaOutcome {
    if !hasKey then KeyMissing
    else
      var selected := SelectedCurrencies(items);
      if selected == [] then ShowError(SelectCurrency)
      else
        var selectedId := currencyId(selected[0].currencyAbbreviation, selected[0].chain);
        match FindItem(items, selectedId, currencyId)
        case None => ShowError(SelectCurrency)
        case Some(item) =>
          var currency :=
            if Lower(item.currency.currencyAbbreviation) == selectedId then Some(item.currency)
            else FindTokenById(item.tokens, selectedId, currencyId);
          match currency
          case None => ShowError(SelectCurrency)
          case Some(cur) => NavigateAddWallet(Lower(cur.currencyAbbreviation), cur.currencyName, cur.isToken, cur.chain)
  }

  /** The id of the first selected entry. */
  function FirstSelectedId(items: seq<ListItem>, currencyId: (string, string) -> string): string
    requires SelectedCurrencies(items) != []
  {
    var first := SelectedCurrencies(items)[0];
    currencyId(first.currencyAbbreviation, first.chain)
  }

  /**
   * The add-wallet button opens the add-wallet screen exactly when there is a
   * key, something is selected, and some row matches the first selection; it
   * then opens it for a chain currency or token of that row whose id is the
   * selection's.
   */
  lemma AddWalletOutcome(hasKey: bool, items: seq<ListItem>, currencyId: (string, string) -> string)
    ensures !hasKey ==> AddWalletAction(hasKey, items, currencyId) == KeyMissing
    ensures hasKey && (forall item :: item in items ==> NothingSelected(item)) ==>
      AddWalletAction(hasKey, items, currencyId) == ShowError(SelectCurrency)
    ensures AddWalletAction(hasKey, items, currencyId).NavigateAddWallet? <==>
      hasKey && SelectedCurrencies(items) != [] &&
      exists item :: item in items && Hit(item, FirstSelectedId(items, currencyId), currencyId)
    ensures var r := AddWalletAction(hasKey, items, currencyId);
      r.NavigateAddWallet? ==>
        var id := FirstSelectedId(items, currencyId);
        exists item, cur :: item in items &&
          ((cur == item.currency && Lower(cur.currencyAbbreviation) == id) ||
           (cur in item.tokens && currencyId(cur.currencyAbbreviation, cur.chain) == id)) &&
          r == NavigateAddWallet(Lower(cur.currencyAbbreviation), cur.currencyName, cur.isToken, cur.chain)
  {
    if hasKey && SelectedCurrencies(items) != [] {
      SelectedCurrenciesFacts(items);
      var id := FirstSelectedId(items, currencyId);
      var found := FindItem(items, id, currencyId);
      if found.Some? {
        var item := found.value;
        if Lower(item.currency.currencyAbbreviation) != id {
          var t := FindTokenById(item.tokens, id, currencyId);
          assert t.Some?;
          assert t.value in item.tokens && currencyId(t.value.currencyAbbreviation, t.value.chain) == id;
        }
      }
    }
  }

  /**
   * The add-wallet button opens the first row matching the first selection:
   * its chain currency when that is the match, otherwise its first token whose
   * id is the selection's.
   */
  lemma AddWalletTargetsFirstMatch(items: seq<ListItem>, currencyId: (string, string) -> string, i: nat)
    requires SelectedCurrencies(items) != []
    requires FirstHit(items, FirstSelectedId(items, currencyId), currencyId, i)
    ensures var id := FirstSelectedId(items, currencyId);
      var cur := items[i].currency;
      Lower(cur.currencyAbbreviation) == id ==>
        AddWalletAction(true, items, currencyId) == NavigateAddWallet(id, cur.currencyName, cur.isToken, cur.chain)
    ensures var id := FirstSelectedId(items, currencyId);
      var tokens := items[i].tokens;
      forall k :: Lower(items[i].currency.currencyAbbreviation) != id && FirstWithId(tokens, id, currencyId, k) ==>
        AddWalletAction(true, items, currencyId) ==
          NavigateAddWallet(Lower(tokens[k].currencyAbbreviation), tokens[k].currencyName, tokens[k].isToken, tokens[k].chain)
  {
  }

  /** The multisig button: an error with nothing selected, otherwise the first selection's abbreviation. */
  function MultisigAction(items: seq<ListItem>): CtaOutcome {
    var selected := SelectedCurrencies(items);
    if selected == [] then ShowError(SelectCurrency)
    else NavigateCreateMultisig(selected[0].currencyAbbreviation)
  }

  /**
   * Selecting an unselected currency in single mode and pressing the multisig
   * button creates a multisig wallet for that currency.
   */
  lemma MultisigAfterSelect(items: seq<ListItem>, i: nat)
    requires WellFormed(items) && i < |items| && !items[i].currency.selected
    ensures var abbr := items[i].currency.currencyAbbreviation;
      MultisigAction(ToggledList(items, abbr, Some(items[i].currency.chain), Single)) == NavigateCreateMultisig(Lower(abbr))
  {
    SingleSelectsOnlyCurrency(items, i);
  }
}
