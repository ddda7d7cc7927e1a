/**
 * The orchestrator (`JudoWebPayments`, src/index.tsx): one mutable
 * configuration with defaults, complete-replacement setters, and the total
 * derived from the line items whenever they are replaced.
 */
module Payments {
  import opened Wrappers
  import opened ArrayOps
  import opened ApplePayTypes
  import opened GooglePayTypes
  import opened JudoPayTypes
  import ApplePayButton
  import GooglePayButton

  const DefaultAppleNetworks: seq<ApplePaySupportedNetwork> :=
    [ApplePaySupportedNetwork.Visa, ApplePaySupportedNetwork.MasterCard, ApplePaySupportedNetwork.Amex]

  const DefaultGoogleNetworks: seq<GooglePaySupportedNetwork> :=
    [GooglePaySupportedNetwork.Amex, GooglePaySupportedNetwork.MasterCard, GooglePaySupportedNetwork.Visa]

  // ---------------------------------------------------------------------
  // The derived total
  // ---------------------------------------------------------------------

  /** The filter callback `item => item.pending === true`: an absent flag does not count. */
  function IsPendingItem(item: JudoPaymentItem): (pending: bool) {
    item.pending == Some(true)
  }

  function PriceOf(item: JudoPaymentItem): (price: real) {
    item.amount.value
  }

  /**
   * What the total must be for a given item list: "Total" 0.0 GBP with no
   * pending flag when there are no items; otherwise the exact sum of the
   * item amounts, in the FIRST item's currency, pending iff some item is.
   */
  function TotalOf(items: seq<JudoPaymentItem>): (total: JudoPaymentItem)
    ensures total.caption == "Total" && total.description.None?
  {
    if |items| == 0 then
      JudoPaymentItem("Total", None, JudoPaymentCurrencyAmount(0.0, "GBP"), None)
    else
      JudoPaymentItem(
        "Total",
        None,
        JudoPaymentCurrencyAmount(Sum(Map(items, PriceOf)), items[0].amount.currency),
        Some(AnyPending(items)))
  }

  /** Some item is flagged `pending === true`. */
  predicate AnyPending(items: seq<JudoPaymentItem>) {
    exists i :: 0 <= i < |items| && items[i].pending == Some(true)
  }

  lemma AnyPendingConcat(a: seq<JudoPaymentItem>, b: seq<JudoPaymentItem>)
    ensures AnyPending(a + b) <==> AnyPending(a) || AnyPending(b)
  {
    if AnyPending(a) {
      var i :| 0 <= i < |a| && a[i].pending == Some(true);
      assert (a + b)[i] == a[i];
    }
    if AnyPending(b) {
      var i :| 0 <= i < |b| && b[i].pending == Some(true);
      assert (a + b)[|a| + i] == b[i];
    }
    if AnyPending(a + b) {
      var i :| 0 <= i < |a + b| && (a + b)[i].pending == Some(true);
      if i >= |a| {
        assert b[i - |a|] == (a + b)[i];
      } else {
        assert a[i] == (a + b)[i];
      }
    }
  }

  /**
   * Joining two non-empty item lists adds their totals, keeps the first
   * list's currency, and is pending iff either part is.
   */
  lemma {:induction false} TotalOfConcat(a: seq<JudoPaymentItem>, b: seq<JudoPaymentItem>)
    requires |a| > 0 && |b| > 0
    ensures TotalOf(a + b).amount.value == TotalOf(a).amount.value + TotalOf(b).amount.value
    ensures TotalOf(a + b).amount.currency == TotalOf(a).amount.currency
    ensures TotalOf(a + b).pending == Some(IsTrue(TotalOf(a).pending) || IsTrue(TotalOf(b).pending))
  {
    assert Map(a + b, PriceOf) == Map(a, PriceOf) + Map(b, PriceOf);
    SumConcat(Map(a, PriceOf), Map(b, PriceOf));
    AnyPendingConcat(a, b);
  }

  // ---------------------------------------------------------------------
  // The orchestrator
  // ---------------------------------------------------------------------

  class JudoWebPayments {
    /** The one configuration object; both buttons are handed this very object. */
    const configuration: JudoPayConfiguration

    constructor ()
      ensures fresh(configuration)
      ensures configuration.displayName == "" && configuration.domainName == "" && configuration.countryCode == ""
      ensures configuration.applePayConfiguration == ApplePayConfiguration(
                "", [Supports3DS], DefaultAppleNetworks, "", "", ApplePayButtonStyle.Black, Plain)
      ensures configuration.googlePayConfiguration == GooglePayConfiguration(
                Test, "", [PanOnly], DefaultGoogleNetworks, None, Short, GooglePayButtonStyle.Black)
      // the initial total is the one an empty item list resets to
      ensures configuration.paymentDetails == JudoPaymentDetails(TotalOf([]), None, None)
      ensures configuration.paymentOptions == JudoPaymentOptions(Some(true), Some(true), Some(true), Some(false), None)
    {
      var apConfiguration := ApplePayConfiguration(
        merchantIdentifier := "",
        merchantCapabilities := [Supports3DS],
        supportedNetworks := DefaultAppleNetworks,
        certificate := "",
        key := "",
        style := ApplePayButtonStyle.Black,
        buttonType := Plain);
      var gpConfiguration := GooglePayConfiguration(
        environment := Test,
        merchantIdentifier := "",
        merchantCapabilities := [PanOnly],
        supportedNetworks := DefaultGoogleNetworks,
        allowedCountryCodes := None,
        buttonType := Short,
        style := GooglePayButtonStyle.Black);
      var paymentDetails := JudoPaymentDetails(
        total := JudoPaymentItem("Total", None, JudoPaymentCurrencyAmount(0.0, "GBP"), None),
        displayItems := None,
        shippingOptions := None);
      var paymentOptions := JudoPaymentOptions(
        requestPayerEmail := Some(true),
        requestPayerName := Some(true),
        requestPayerPhone := Some(true),
        requestShipping := Some(false),
        shippingType := None);
      configuration := new JudoPayConfiguration("", "", "", apConfiguration, gpConfiguration, paymentDetails, paymentOptions);
    }

    /**
     * Overwrites all seven Apple Pay fields; an absent network list, style or
     * type takes its default (`None` is an `undefined` argument).
     */
    method SetApplePayConfiguration(
      merchantIdentifier: string,
      merchantCapabilities: seq<ApplePayMerchantCapability>,
      supportedNetworks: Option<seq<ApplePaySupportedNetwork>>,
      certificate: string,
      key: string,
      style: Option<ApplePayButtonStyle>,
      buttonType: Option<ApplePayButtonType>)
      modifies configuration`applePayConfiguration
      ensures configuration.applePayConfiguration == ApplePayConfiguration(
                merchantIdentifier, merchantCapabilities, supportedNetworks.GetOr(DefaultAppleNetworks),
                certificate, key, style.GetOr(ApplePayButtonStyle.Black), buttonType.GetOr(Plain))
    {
      var ap := configuration.applePayConfiguration;
      ap := ap.(merchantIdentifier := merchantIdentifier);
      ap := ap.(merchantCapabilities := merchantCapabilities);
      ap := ap.(supportedNetworks := supportedNetworks.GetOr(DefaultAppleNetworks));
      ap := ap.(certificate := certificate);
      ap := ap.(key := key);
      ap := ap.(style := style.GetOr(ApplePayButtonStyle.Black));
      ap := ap.(buttonType := buttonType.GetOr(Plain));
      configuration.applePayConfiguration := ap;
    }

    /**
     * Overwrites all seven Google Pay fields; an absent network list takes its
     * default, while absent allowed country codes stay absent.
     */
    method SetGooglePayConfiguration(
      environment: GooglePayEnvironment,
      merchantIdentifier: string,
      merchantCapabilities: seq<GooglePayMerchantCapability>,
      supportedNetworks: Option<seq<GooglePaySupportedNetwork>>,
      buttonType: GooglePayButtonType,
      style: GooglePayButtonStyle,
      allowedCountryCodes: Option<seq<string>>)
      modifies configuration`googlePayConfiguration
      ensures configuration.googlePayConfiguration == GooglePayConfiguration(
                environment, merchantIdentifier, merchantCapabilities, supportedNetworks.GetOr(DefaultGoogleNetworks),
                allowedCountryCodes, buttonType, style)
    {
      var gp := configuration.googlePayConfiguration;
      gp := gp.(environment := environment);
      gp := gp.(merchantCapabilities := merchantCapabilities);
      gp := gp.(merchantIdentifier := merchantIdentifier);
      gp := gp.(supportedNetworks := supportedNetworks.GetOr(DefaultGoogleNetworks));
      gp := gp.(allowedCountryCodes := allowedCountryCodes);
      gp := gp.(buttonType := buttonType);
      gp := gp.(style := style);
      configuration.googlePayConfiguration := gp;
    }

    /** Sets the merchant identity; nothing else changes. */
    method SetJudoPayConfiguration(displayName: string, domainName: string, countryCode: string)
      modifies configuration`displayName, configuration`domainName, configuration`countryCode
      ensures configuration.displayName == displayName
      ensures configuration.domainName == domainName
      ensures configuration.countryCode == countryCode
    {
      configuration.displayName := displayName;
      configuration.domainName := domainName;
      configuration.countryCode := countryCode;
    }

    /** Stores the line items and recomputes the total; the shipping options are kept. */
    method SetPaymentDetails(items: seq<JudoPaymentItem>)
      modifies configuration`paymentDetails
      ensures configuration.paymentDetails ==
                old(configuration.paymentDetails).(displayItems := Some(items), total := TotalOf(items))
    {
      configuration.paymentDetails := configuration.paymentDetails.(displayItems := Some(items));
      CalculateTotal(items);
    }

    /** Replaces the shipping options; the total is NOT recomputed. */
    method SetShippingOptions(options: seq<JudoPaymentShippingOption>)
      modifies configuration`paymentDetails
      ensures configuration.paymentDetails == old(configuration.paymentDetails).(shippingOptions := Some(options))
    {
      configuration.paymentDetails := configuration.paymentDetails.(shippingOptions := Some(options));
    }

    /** Replaces the payment options wholesale. */
    method SetPaymentOptions(options: JudoPaymentOptions)
      modifies configuration`paymentOptions
      ensures configuration.paymentOptions == options
    {
      configuration.paymentOptions := options;
    }

    /**
     * Recomputes the total from the items with the source's own steps —
     * filter for pending items, map to prices, reduce to a sum — and is
     * proved to yield `TotalOf(items)`.
     */
    method CalculateTotal(displayItems: seq<JudoPaymentItem>)
      modifies configuration`paymentDetails
      ensures configuration.paymentDetails == old(configuration.paymentDetails).(total := TotalOf(displayItems))
    {
      if |displayItems| == 0 {
        configuration.paymentDetails := configuration.paymentDetails.(
          total := JudoPaymentItem("Total", None, JudoPaymentCurrencyAmount(0.0, "GBP"), None));
        return;
      }

      var pendingItems := Filter(displayItems, IsPendingItem);
      var isPending := |pendingItems| > 0;
      FilterNonEmpty(displayItems, IsPendingItem);

      var prices := Map(displayItems, PriceOf);
      var total := ReduceSum(prices);

      configuration.paymentDetails := configuration.paymentDetails.(
        total := JudoPaymentItem(
          "Total",
          None,
          JudoPaymentCurrencyAmount(total, displayItems[0].amount.currency),
          Some(isPending)));
    }

    /**
     * Creates the Apple Pay button the way line 185 does: height and language
     * are passed in the opposite order to the component's parameters.
     */
    method GetApplePayButtonAsWritten(height: string, language: string) returns (button: ApplePayButton.ApplePayImpl)
      ensures fresh(button) && button.configuration == configuration
      ensures button.language == height && button.height == language
    {
      button := new ApplePayButton.ApplePayImpl(configuration, height, language);
    }

    /** Creates the Apple Pay button with each argument bound to its own parameter. */
    method GetApplePayButton(height: string, language: string) returns (button: ApplePayButton.ApplePayImpl)
      ensures fresh(button) && button.configuration == configuration
      ensures button.language == language && button.height == height
    {
      button := new ApplePayButton.ApplePayImpl(configuration, language, height);
    }

    /** Creates the Google Pay component over the shared configuration. */
    method GetGooglePayButton(height: string) returns (googlePay: GooglePayButton.GooglePayImpl)
      ensures fresh(googlePay) && googlePay.configuration == configuration && googlePay.height == height
      ensures googlePay.paymentsClient.None? && googlePay.paymentMethod.None?
    {
      googlePay := new GooglePayButton.GooglePayImpl(configuration, height);
    }
  }

  // ---------------------------------------------------------------------
  // Clients of the orchestrator
  // ---------------------------------------------------------------------

  /**
   * A button created before `setPaymentDetails` reads the new items and the
   * recomputed total: it shares the orchestrator's configuration object.
   */
  method ButtonSeesLaterSetters(items: seq<JudoPaymentItem>, options: seq<JudoPaymentShippingOption>)
    returns (seen: JudoPaymentDetails)
    ensures seen.displayItems == Some(items)
    ensures seen.shippingOptions == Some(options)
    ensures seen.total == TotalOf(items)
  {
    var payments := new JudoWebPayments();
    var googlePay := payments.GetGooglePayButton("40px");
    payments.SetShippingOptions(options);
    payments.SetPaymentDetails(items);
    seen := googlePay.configuration.paymentDetails;
  }

  /** With height "44px" and language "en-GB", the button as line 185 builds it gets "44px" as its language. */
  method ApplePayLanguageMisbound() returns (language: string, height: string)
    ensures language == "44px" && height == "en-GB"
  {
    var payments := new JudoWebPayments();
    var button := payments.GetApplePayButtonAsWritten("44px", "en-GB");
    language, height := button.language, button.height;
  }

  /**
   * Items 10.00 USD and 5.00 USD total 15 USD, not pending. With shipping
   * options "std" (2.00) and "exp" (9.00, selected), the sheet opens at 24,
   * choosing "std" recalculates to 17, and an unknown id "xx" gives no update.
   */
  method ShippingScenario() returns (total: JudoPaymentItem, opening: real, std: real, unknown: bool)
    ensures total.amount == JudoPaymentCurrencyAmount(15.0, "USD") && total.pending == Some(false)
    ensures opening == 24.0 && std == 17.0 && unknown
  {
    var payments := new JudoWebPayments();
    var items := [
      JudoPaymentItem("Book", None, JudoPaymentCurrencyAmount(10.0, "USD"), None),
      JudoPaymentItem("Pen", None, JudoPaymentCurrencyAmount(5.0, "USD"), None)];
    var standard := JudoPaymentShippingOption("std", "Standard", None, JudoPaymentCurrencyAmount(2.0, "USD"), false);
    var express := JudoPaymentShippingOption("exp", "Express", None, JudoPaymentCurrencyAmount(9.0, "USD"), true);
    payments.SetPaymentDetails(items);
    payments.SetShippingOptions([standard, express]);
    var details := payments.configuration.paymentDetails;
    total := details.total;
    assert Map(items, PriceOf) == [10.0, 5.0];
    assert Sum([10.0, 5.0]) == 10.0 + Sum([5.0]) == 15.0;

    GooglePayButton.ClickTotalSpec(details);
    assert IsFirstWhere([standard, express], GooglePayButton.IsSelected, 1);
    opening := GooglePayButton.CalculateTotalAmount(details);

    var pickStd := GooglePaymentsApi.IntermediatePaymentData("SHIPPING_OPTION", GooglePaymentsApi.SelectionOptionData("std"));
    GooglePayButton.RecalculationSpec(details, pickStd);
    assert IsFirstWhere([standard, express], GooglePayButton.HasId("std"), 0);
    var update := GooglePayButton.OnPaymentDataChanged(details, pickStd);
    std := update.value.newTransactionInfo.value.totalPrice;

    var pickUnknown := GooglePaymentsApi.IntermediatePaymentData("SHIPPING_OPTION", GooglePaymentsApi.SelectionOptionData("xx"));
    GooglePayButton.RecalculationSpec(details, pickUnknown);
    unknown := GooglePayButton.OnPaymentDataChanged(details, pickUnknown).None?;
  }
}
