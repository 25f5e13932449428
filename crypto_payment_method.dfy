/**
 * The buy-crypto payment-method page: the table of payment methods, filtered
 * down to the enabled ones when the page loads, the selected method defaulted
 * once when the page is entered, and the save button that hands a changed
 * selection back to the page that opened it as a modal.
 */
module CryptoPaymentMethod {
  import opened Wrappers

  /** A payment method; `labelKey` is the untranslated label. */
  datatype PaymentMethod = PaymentMethod(
    labelKey: string,
    methodName: string,
    imgSrc: string,
    simplexSupport: bool,
    wyreSupport: bool,
    enabled: bool)

  /**
   * The navigation parameters the page reads. An empty `paymentMethod` stands
   * for a missing one, and a missing `useAsModal` for false.
   */
  datatype NavData = NavData(
    coin: string,
    currency: string,
    network: string,
    walletId: string,
    amount: int,
    useAsModal: bool,
    paymentMethod: string)

  /** How the page was closed: by `close`, or by `save` with the chosen method (absent when not in the table). */
  datatype Dismissal = Closed | Saved(paymentMethod: Option<PaymentMethod>)

  /** The parameters pushed to the order summary. */
  datatype OrderSummary = OrderSummary(
    coin: string,
    currency: string,
    network: string,
    walletId: string,
    paymentMethod: Option<PaymentMethod>,
    amount: int)

  const ApplePay := "applePay"
  const CreditCard := "creditCard"
  const DebitCard := "debitCard"

  /**
   * The table the constructor builds. Apple Pay is enabled only on iOS and is
   * never a Simplex method; the credit card is never a Wyre method; the cards
   * are always enabled. `simplex` and `wyre` say whether each exchange supports
   * the page's coin and currency.
   */
  function DefaultMethods(isIOS: bool, simplex: bool, wyre: bool): (r: map<string, PaymentMethod>)
    ensures r.Keys == {ApplePay, CreditCard, DebitCard}
    ensures forall k :: k in r ==> r[k].methodName == k
    ensures r[ApplePay].enabled == isIOS && r[CreditCard].enabled && r[DebitCard].enabled
    ensures !r[ApplePay].simplexSupport && r[ApplePay].wyreSupport == wyre
    ensures r[CreditCard].simplexSupport == simplex && !r[CreditCard].wyreSupport
    ensures r[DebitCard].simplexSupport == simplex && r[DebitCard].wyreSupport == wyre
  {
    map[
      ApplePay := PaymentMethod("Apple Pay", ApplePay, "assets/img/buy-crypto/apple-pay.svg", false, wyre, isIOS),
      CreditCard := PaymentMethod("Credit Card", CreditCard, "assets/img/buy-crypto/debit-card.svg", simplex, false, true),
      DebitCard := PaymentMethod("Debit Card", DebitCard, "assets/img/buy-crypto/debit-card.svg", simplex, wyre, true)]
  }

  /** `pickBy` on `enabled`: exactly the enabled entries, unchanged. */
  function PickEnabled(methods: map<string, PaymentMethod>): (r: map<string, PaymentMethod>)
    ensures r.Keys <= methods.Keys
    ensures forall k :: k in methods ==> (k in r <==> methods[k].enabled)
    ensures forall k :: k in r ==> r[k] == methods[k] && r[k].enabled
  {
    map k | k in methods && methods[k].enabled :: methods[k]
  }

  /** Filtering twice is filtering once. */
  lemma PickEnabledIdempotent(methods: map<string, PaymentMethod>)
    ensures PickEnabled(PickEnabled(methods)) == PickEnabled(methods)
  {
  }

  /** After loading, Apple Pay is offered only on iOS and both cards always are. */
  lemma LoadedMethods(isIOS: bool, simplex: bool, wyre: bool)
    ensures PickEnabled(DefaultMethods(isIOS, simplex, wyre)).Keys ==
      if isIOS then {ApplePay, CreditCard, DebitCard} else {CreditCard, DebitCard}
  {
    var m := DefaultMethods(isIOS, simplex, wyre);
    var r := PickEnabled(m);
    assert CreditCard in r && DebitCard in r;
    assert ApplePay in r <==> isIOS;
  }

  /** The selection after entering: an existing one is kept; otherwise the passed method, falling back to the credit card. */
  function EnteredSelection(current: string, passed: string): (r: string)
    ensures r != ""
    ensures current != "" ==> r == current
    ensures current == "" && passed != "" ==> r == passed
    ensures current == "" && passed == "" ==> r == CreditCard
  {
    if current != "" then current
    else if passed != "" then passed
    else CreditCard
  }

  /** Entering again never changes the selection. */
  lemma EnteredSelectionIsStable(current: string, passed: string, later: string)
    ensures EnteredSelection(EnteredSelection(current, passed), later) == EnteredSelection(current, passed)
  {
  }

  /** `save` dismisses only as a modal, with a selection, and when the selection differs from the one passed in. */
  predicate SaveDismisses(useAsModal: bool, selected: string, passed: string) {
    useAsModal && selected != "" && passed != selected
  }

  /** The page, with the dismissals and pushes it has made. */
  class CryptoPaymentMethodPage {
    const navData: NavData
    var methods: map<string, PaymentMethod>
    var methodSelected: string
    var useAsModal: bool
    var dismissals: seq<Dismissal>
    var pushes: seq<OrderSummary>

    /** The table only ever holds the three known methods, each under its own name. */
    ghost predicate Valid()
      reads this
    {
      && methods.Keys <= {ApplePay, CreditCard, DebitCard}
      && forall k :: k in methods ==> methods[k].methodName == k
    }

    /** The method under the selection, if the table has it. */
    function Chosen(): (r: Option<PaymentMethod>)
      reads this
      ensures r.Some? <==> methodSelected in methods
      ensures r.Some? ==> r.value == methods[methodSelected]
      ensures Valid() && r.Some? ==> r.value.methodName == methodSelected
    {
      if methodSelected in methods then Some(methods[methodSelected]) else None
    }

    /** Builds the table; nothing is selected yet. */
    constructor(navData: NavData, isIOS: bool, simplex: bool, wyre: bool)
      ensures Valid()
      ensures this.navData == navData
      ensures methods == DefaultMethods(isIOS, simplex, wyre)
      ensures methodSelected == "" && !useAsModal
      ensures dismissals == [] && pushes == []
    {
      this.navData := navData;
      methods := DefaultMethods(isIOS, simplex, wyre);
      methodSelected := "";
      useAsModal := false;
      dismissals := [];
      pushes := [];
    }

    /** `ionViewDidLoad`: keeps only the enabled methods. */
    method IonViewDidLoad()
      requires Valid()
      modifies this
      ensures Valid()
      ensures methods == PickEnabled(old(methods))
      ensures methodSelected == old(methodSelected) && useAsModal == old(useAsModal)
      ensures dismissals == old(dismissals) && pushes == old(pushes)
    {
      methods := PickEnabled(methods);
    }

    /** `ionViewWillEnter`: reads `useAsModal`, and defaults the selection once. */
    method IonViewWillEnter()
      requires Valid()
      modifies this
      ensures Valid()
      ensures useAsModal == navData.useAsModal
      ensures methodSelected == EnteredSelection(old(methodSelected), navData.paymentMethod)
      ensures methods == old(methods) && dismissals == old(dismissals) && pushes == old(pushes)
    {
      useAsModal := navData.useAsModal;
      if methodSelected == "" {
        methodSelected := if navData.paymentMethod != "" then navData.paymentMethod else CreditCard;
      }
    }

    /** `goToOrderSummary`: pushes the order summary with the chosen method. */
    method GoToOrderSummary()
      modifies this
      ensures pushes == old(pushes) + [OrderSummary(navData.coin, navData.currency, navData.network,
                                                     navData.walletId, old(Chosen()), navData.amount)]
      ensures methods == old(methods) && methodSelected == old(methodSelected)
      ensures useAsModal == old(useAsModal) && dismissals == old(dismissals)
    {
      var chosen := Chosen();
      pushes := pushes + [OrderSummary(navData.coin, navData.currency, navData.network, navData.walletId, chosen, navData.amount)];
    }

    /** `close`: dismisses without data. */
    method Close()
      modifies this
      ensures dismissals == old(dismissals) + [Closed]
      ensures methods == old(methods) && methodSelected == old(methodSelected)
      ensures useAsModal == old(useAsModal) && pushes == old(pushes)
    {
      dismissals := dismissals + [Closed];
    }

    /** `save`: dismisses with the chosen method when the save conditions hold, and otherwise does nothing. */
    method Save()
      modifies this
      ensures dismissals == old(dismissals) +
        if SaveDismisses(useAsModal, methodSelected, navData.paymentMethod) then [Saved(Chosen())] else []
      ensures methods == old(methods) && methodSelected == old(methodSelected)
      ensures useAsModal == old(useAsModal) && pushes == old(pushes)
    {
      if !useAsModal || methodSelected == "" || navData.paymentMethod == methodSelected {
        return;
      }
      dismissals := dismissals + [Saved(Chosen())];
    }
  }

  /**
   * A page opened as a modal with a method passed in, entered and saved at once,
   * does not dismiss: the defaulted selection is the one passed in.
   */
  lemma SaveRightAfterEnterKeepsPassed(useAsModal: bool, passed: string)
    requires passed != ""
    ensures !SaveDismisses(useAsModal, EnteredSelection("", passed), passed)
  {
  }

  /**
   * With nothing passed in, saving right after entering dismisses exactly when
   * the page is a modal; from an empty selection it hands back the credit card.
   */
  lemma SaveRightAfterEnterWithoutPassed(useAsModal: bool, current: string)
    ensures SaveDismisses(useAsModal, EnteredSelection(current, ""), "") <==> useAsModal
    ensures current == "" ==> EnteredSelection(current, "") == CreditCard
  {
  }
}
