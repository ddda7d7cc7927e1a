/**
 * The Google Pay button (src/components/GooglePayButton/index.ts): the
 * payment-method descriptor, the click-time payment data request, the live
 * shipping recalculation answered while the sheet is open, and the mapping
 * of the returned payload into the unified response.
 */
module GooglePayButton {
  import opened Wrappers
  import opened ArrayOps
  import opened GooglePayTypes
  import opened GooglePaymentsApi
  import opened JudoPayTypes

  // ---------------------------------------------------------------------
  // Shipping-option selection rules
  // ---------------------------------------------------------------------

  function IsSelected(option: JudoPaymentShippingOption): bool {
    option.selected
  }

  /** The filter callback `option => option.id === id`. */
  function HasId(id: string): JudoPaymentShippingOption -> bool {
    (option: JudoPaymentShippingOption) => option.id == id
  }

  /** `pending` is truthy: the provider shows the price as an estimate. */
  function PriceStatus(total: JudoPaymentItem): (status: TotalPriceStatus)
    ensures status == Estimated <==> total.pending == Some(true)
  {
    if IsTrue(total.pending) then Estimated else Final
  }

  /**
   * Shipping options are offered in the sheet only when the list is defined
   * AND non-empty AND shipping is requested. JavaScript yields `undefined`
   * rather than `false` when `requestShipping` is absent; both callers treat
   * that as false.
   */
  predicate ShouldRequestShippingOptions(details: JudoPaymentDetails, options: JudoPaymentOptions): (r: bool)
    ensures r <==> (options.requestShipping == Some(true) && details.shippingOptions.Some? &&
                    exists option :: option in details.shippingOptions.value)
  {
    var listed := details.shippingOptions;
    assert listed.Some? && |listed.value| > 0 ==> listed.value[0] in listed.value;
    listed.Some? && |listed.value| > 0 && IsTrue(options.requestShipping)
  }

  /**
   * The shipping callback intents are registered when shipping is requested
   * and the list is merely defined; an empty list is enough.
   */
  predicate RegistersShippingIntents(details: JudoPaymentDetails, options: JudoPaymentOptions): (r: bool)
    ensures ShouldRequestShippingOptions(details, options) ==> r
    ensures r ==> options.requestShipping == Some(true)
  {
    IsTrue(options.requestShipping) && details.shippingOptions.Some?
  }

  /** Registering the live recalculation implies registering the shipping intents, but not conversely. */
  lemma ShippingGatesDiffer(details: JudoPaymentDetails, options: JudoPaymentOptions)
    ensures ShouldRequestShippingOptions(details, options) ==> RegistersShippingIntents(details, options)
    ensures (RegistersShippingIntents(details, options) && !ShouldRequestShippingOptions(details, options))
              <==> (IsTrue(options.requestShipping) && details.shippingOptions == Some([]))
  {
  }

  // ---------------------------------------------------------------------
  // Live recalculation while the sheet is open
  // ---------------------------------------------------------------------

  /**
   * The new transaction info for the option the user just picked: undefined
   * when no shipping list is configured or no configured option has that id.
   */
  function CalculateNewPaymentDetails(details: JudoPaymentDetails, data: IntermediatePaymentData): (r: Option<PaymentDataRequestUpdate>)
    ensures r.Some? ==>
              && details.shippingOptions.Some? && r.value.newTransactionInfo.Some?
              && exists option :: option in details.shippingOptions.value && option.id == data.shippingOptionData.id &&
                                  r.value.newTransactionInfo.value == TotalWithShipping(details.total, option)
  {
    if details.shippingOptions.None? then None
    else
      match FirstWhere(details.shippingOptions.value, HasId(data.shippingOptionData.id))
      case None => None
      case Some(option) =>
        var total := details.total;
        Some(PaymentDataRequestUpdate(Some(TransactionInfo(
          PriceStatus(total),
          total.amount.value + option.amount.value,
          Some(total.caption),
          total.amount.currency))))
  }

  /** The transaction info the sheet shows once `option` is chosen on top of the configured total. */
  function TotalWithShipping(total: JudoPaymentItem, option: JudoPaymentShippingOption): (info: TransactionInfo) {
    TransactionInfo(PriceStatus(total), total.amount.value + option.amount.value, Some(total.caption), total.amount.currency)
  }

  /**
   * Recalculation answers "no update" exactly when the list is absent or no
   * option carries the id; otherwise it prices the FIRST option with that id.
   */
  lemma {:induction false} RecalculationSpec(details: JudoPaymentDetails, data: IntermediatePaymentData)
    ensures var id := data.shippingOptionData.id;
            CalculateNewPaymentDetails(details, data).None? <==>
              details.shippingOptions.None? ||
              forall i :: 0 <= i < |details.shippingOptions.value| ==> details.shippingOptions.value[i].id != id
    ensures details.shippingOptions.Some? ==>
              var options, id := details.shippingOptions.value, data.shippingOptionData.id;
              forall k :: IsFirstWhere(options, HasId(id), k) ==>
                CalculateNewPaymentDetails(details, data) ==
                  Some(PaymentDataRequestUpdate(Some(TotalWithShipping(details.total, options[k]))))
  {
    if details.shippingOptions.Some? {
      FirstWhereIsEarliest(details.shippingOptions.value, HasId(data.shippingOptionData.id));
    }
  }

  /** `onPaymentDataChanged`: recalculate on a shipping-option change, answer `{}` to anything else. */
  function OnPaymentDataChanged(details: JudoPaymentDetails, data: IntermediatePaymentData): (r: Option<PaymentDataRequestUpdate>)
    ensures data.callbackTrigger != "SHIPPING_OPTION" ==> r == Some(PaymentDataRequestUpdate(None))
    ensures data.callbackTrigger == "SHIPPING_OPTION" ==> r == CalculateNewPaymentDetails(details, data)
  {
    if data.callbackTrigger == "SHIPPING_OPTION" then
      CalculateNewPaymentDetails(details, data)
    else
      Some(PaymentDataRequestUpdate(None))
  }

  /** `onPaymentAuthorized` acknowledges every authorisation without checking it. */
  function OnPaymentAuthorized(data: PaymentData): (r: PaymentAuthorizationResult)
    ensures r.transactionState == "SUCCESS"
  {
    PaymentAuthorizationResult("SUCCESS")
  }

  // ---------------------------------------------------------------------
  // Click-time request
  // ---------------------------------------------------------------------

  /** The total the sheet opens with: the configured total plus the first selected option, if any. */
  function CalculateTotalAmount(details: JudoPaymentDetails): (r: real)
    ensures details.shippingOptions.None? ==> r == details.total.amount.value
    ensures r == details.total.amount.value ||
            (details.shippingOptions.Some? &&
             exists option :: option in details.shippingOptions.value && option.selected &&
                              r == details.total.amount.value + option.amount.value)
  {
    if details.shippingOptions.None? then details.total.amount.value
    else
      match FirstWhere(details.shippingOptions.value, IsSelected)
      case None => details.total.amount.value
      case Some(option) => details.total.amount.value + option.amount.value
  }

  lemma {:induction false} ClickTotalSpec(details: JudoPaymentDetails)
    ensures (details.shippingOptions.None? ||
             forall i :: 0 <= i < |details.shippingOptions.value| ==> !details.shippingOptions.value[i].selected)
            ==> CalculateTotalAmount(details) == details.total.amount.value
    ensures details.shippingOptions.Some? ==>
              var options := details.shippingOptions.value;
              forall k :: IsFirstWhere(options, IsSelected, k) ==>
                CalculateTotalAmount(details) == details.total.amount.value + options[k].amount.value
  {
    if details.shippingOptions.Some? {
      FirstWhereIsEarliest(details.shippingOptions.value, IsSelected);
    }
  }

  /**
   * The price the sheet opens with agrees with the price the live callback
   * gives for the same pre-selected option, provided ids are unique.
   */
  lemma {:induction false} ClickTotalMatchesRecalculation(details: JudoPaymentDetails, data: IntermediatePaymentData, k: nat)
    requires details.shippingOptions.Some?
    requires IsFirstWhere(details.shippingOptions.value, IsSelected, k)
    requires data.shippingOptionData.id == details.shippingOptions.value[k].id
    requires forall i, j :: 0 <= i < j < |details.shippingOptions.value| ==>
               details.shippingOptions.value[i].id != details.shippingOptions.value[j].id
    ensures CalculateNewPaymentDetails(details, data).Some?
    ensures CalculateNewPaymentDetails(details, data).value.newTransactionInfo.value.totalPrice == CalculateTotalAmount(details)
  {
    var options := details.shippingOptions.value;
    ClickTotalSpec(details);
    RecalculationSpec(details, data);
    assert IsFirstWhere(options, HasId(data.shippingOptionData.id), k) by {
      forall j | 0 <= j < k ensures !HasId(data.shippingOptionData.id)(options[j]) {
        assert options[j].id != options[k].id;
      }
    }
  }

  /** The option as the sheet lists it; `amountText` is the host-locale currency symbol and amount. */
  function ShownOption(amountText: JudoPaymentShippingOption -> string, option: JudoPaymentShippingOption): (shown: SelectionOption) {
    SelectionOption(option.id, amountText(option) + ": " + option.caption, option.description)
  }

  /** The shipping-option parameters: every configured option, and the first selected one as default. */
  function GetShippingOptionParameters(details: JudoPaymentDetails, amountText: JudoPaymentShippingOption -> string): (r: Option<ShippingOptionParameters>)
    ensures r.Some? ==>
              && details.shippingOptions.Some?
              && |r.value.shippingOptions| == |details.shippingOptions.value|
              && exists option :: option in details.shippingOptions.value && option.selected &&
                                  option.id == r.value.defaultSelectedOptionId
  {
    if details.shippingOptions.None? then None
    else
      var options := details.shippingOptions.value;
      var shown := Map(options, option => ShownOption(amountText, option));
      match FirstWhere(options, IsSelected)
      case Some(defaultOption) => Some(ShippingOptionParameters(defaultOption.id, shown))
      case None => None
  }

  /** The parameters are undefined exactly when no option list is configured or none is selected. */
  lemma {:induction false} ShippingOptionParametersPresence(details: JudoPaymentDetails, amountText: JudoPaymentShippingOption -> string)
    ensures GetShippingOptionParameters(details, amountText).None? <==>
              details.shippingOptions.None? ||
              forall i :: 0 <= i < |details.shippingOptions.value| ==> !details.shippingOptions.value[i].selected
  {
    if details.shippingOptions.Some? {
      FirstWhereIsEarliest(details.shippingOptions.value, IsSelected);
    }
  }

  /**
   * When defined, the parameters list every configured option in order with
   * its id and description, and the default is the first selected option.
   */
  lemma {:induction false} ShippingOptionParametersSpec(details: JudoPaymentDetails, amountText: JudoPaymentShippingOption -> string)
    requires details.shippingOptions.Some?
    requires GetShippingOptionParameters(details, amountText).Some?
    ensures var options, r := details.shippingOptions.value, GetShippingOptionParameters(details, amountText).value;
            && |r.shippingOptions| == |options|
            && (forall i :: 0 <= i < |options| ==>
                  && r.shippingOptions[i].id == options[i].id
                  && r.shippingOptions[i].description == options[i].description
                  && r.shippingOptions[i].caption == amountText(options[i]) + ": " + options[i].caption)
            && (forall k :: IsFirstWhere(options, IsSelected, k) ==> r.defaultSelectedOptionId == options[k].id)
  {
    FirstWhereIsEarliest(details.shippingOptions.value, IsSelected);
  }

  /** The default option id is always one of the listed option ids. */
  lemma ShippingOptionDefaultIsListed(details: JudoPaymentDetails, amountText: JudoPaymentShippingOption -> string)
    requires GetShippingOptionParameters(details, amountText).Some?
    ensures var r := GetShippingOptionParameters(details, amountText).value;
            exists i :: 0 <= i < |r.shippingOptions| && r.shippingOptions[i].id == r.defaultSelectedOptionId
  {
  }

  /** The descriptor of the accepted card payment method, tokenised by the judopay gateway. */
  function PaymentMethodFor(config: GooglePayConfiguration): (m: PaymentMethod)
    ensures |m.allowedAuthMethods| == |config.merchantCapabilities|
    ensures forall i :: 0 <= i < |config.merchantCapabilities| ==>
              m.allowedAuthMethods[i] == CapabilityName(config.merchantCapabilities[i])
    ensures |m.allowedCardNetworks| == |config.supportedNetworks|
    ensures forall i :: 0 <= i < |config.supportedNetworks| ==>
              m.allowedCardNetworks[i] == NetworkName(config.supportedNetworks[i])
  {
    PaymentMethod(
      "CARD",
      Map(config.merchantCapabilities, CapabilityName),
      Map(config.supportedNetworks, NetworkName),
      "PAYMENT_GATEWAY",
      "judopay",
      config.merchantIdentifier)
  }

  /**
   * The descriptor is a faithful image of the configuration: a card method
   * tokenised by the judopay gateway for the configured merchant, listing
   * the configured auth methods and networks in order; two configurations
   * with the same descriptor agree on networks, methods and merchant id.
   */
  lemma PaymentMethodSpec(a: GooglePayConfiguration, b: GooglePayConfiguration)
    ensures var m := PaymentMethodFor(a);
            && m.methodType == "CARD" && m.tokenizationType == "PAYMENT_GATEWAY" && m.gateway == "judopay"
            && m.gatewayMerchantId == a.merchantIdentifier
            && |m.allowedAuthMethods| == |a.merchantCapabilities|
            && (forall i :: 0 <= i < |a.merchantCapabilities| ==> m.allowedAuthMethods[i] == CapabilityName(a.merchantCapabilities[i]))
            && |m.allowedCardNetworks| == |a.supportedNetworks|
            && (forall i :: 0 <= i < |a.supportedNetworks| ==> m.allowedCardNetworks[i] == NetworkName(a.supportedNetworks[i]))
    ensures PaymentMethodFor(a) == PaymentMethodFor(b) ==>
              && a.supportedNetworks == b.supportedNetworks
              && a.merchantCapabilities == b.merchantCapabilities
              && a.merchantIdentifier == b.merchantIdentifier
  {
    CapabilityNameInjective();
    NetworkNameInjective();
  }

  /** The address filters of the request: allowed countries, and whether a phone number is asked for. */
  function GetShippingParameters(config: GooglePayConfiguration, options: JudoPaymentOptions): (r: ShippingAddressParameters)
    ensures r.allowedCountryCodes == config.allowedCountryCodes
    ensures r.phoneNumberRequired == options.requestPayerPhone
  {
    ShippingAddressParameters(config.allowedCountryCodes, options.requestPayerPhone)
  }

  // ---------------------------------------------------------------------
  // Response normalisation
  // ---------------------------------------------------------------------

  /** The id of the option the payer ended with, or undefined when the payload carries none. */
  function GetSelectedShippingOption(data: PaymentData): (r: Option<string>)
    ensures r.Some? <==> data.shippingOptionData.Some?
    ensures r.Some? ==> r.value == data.shippingOptionData.value.id
  {
    if data.shippingOptionData.Some? then Some(data.shippingOptionData.value.id) else None
  }

  /** Billing details carry the payer's e-mail only. */
  function GetBillingDetails(data: PaymentData): (r: JudoBillingDetails)
    ensures r.email == data.email && r.name.None? && r.phone.None?
  {
    JudoBillingDetails(None, data.email, None)
  }

  /** The provider address recovered from unified shipping details, where they came from one. */
  function AddressOf(details: JudoShippingDetails): (r: Option<Address>) {
    match details.addressLine
    case Some(lines) =>
      if |lines| == 3 then
        Some(Address(details.name, details.postalCode, details.countryCode, details.phone,
                     lines[0], lines[1], lines[2],
                     details.locality, details.administrativeArea, details.sortingCode))
      else None
    case None => None
  }

  /**
   * Shipping details exist exactly when the payload has an address; they set
   * only the eight fields the provider supplies and lose none of them.
   */
  function GetShippingDetails(data: PaymentData): (r: Option<JudoShippingDetails>)
    ensures r.None? <==> data.shippingAddress.None?
    ensures r.Some? ==> AddressOf(r.value) == data.shippingAddress
    ensures r.Some? ==>
              var a := data.shippingAddress.value;
              && r.value.addressLine == Some([a.address1, a.address2, a.address3])
              && r.value.phone == a.phoneNumber
              && r.value.city.None? && r.value.country.None? && r.value.dependentLocality.None?
              && r.value.languageCode.None? && r.value.organization.None?
              && r.value.recipient.None? && r.value.region.None?
  {
    match data.shippingAddress
    case Some(a) =>
      Some(JudoShippingDetails(
        addressLine := Some([a.address1, a.address2, a.address3]),
        administrativeArea := a.administrativeArea,
        city := None,
        country := None,
        countryCode := a.countryCode,
        locality := a.locality,
        dependentLocality := None,
        languageCode := None,
        organization := None,
        name := a.name,
        phone := a.phoneNumber,
        postalCode := a.postalCode,
        recipient := None,
        region := None,
        sortingCode := a.sortingCode))
    case None => None
  }

  /** The response record built when the payment sheet resolves. */
  function PaymentResponseOf(data: PaymentData): (r: JudoPaymentResponse)
    ensures r.paymentDetails == data.paymentMethodData
    ensures r.billingDetails.Some?
    ensures r.shippingOptionSelected.Some? <==> data.shippingOptionData.Some?
    ensures r.shippingOptionSelected.Some? ==> r.shippingOptionSelected.value == data.shippingOptionData.value.id
    ensures PayloadOf(r) == Some(data)
  {
    JudoPaymentResponse(
      Some(data.apiVersion),
      Some(data.apiVersionMinor),
      data.paymentMethodData,
      Some(GetBillingDetails(data)),
      GetShippingDetails(data),
      GetSelectedShippingOption(data))
  }

  /** The provider payload a unified response was built from, where it can be read back. */
  function PayloadOf(r: JudoPaymentResponse): (data: Option<PaymentData>) {
    if r.googleApiVersion.None? || r.googleApiMinor.None? || r.billingDetails.None? then None
    else
      var selected := if r.shippingOptionSelected.Some? then Some(SelectionOptionData(r.shippingOptionSelected.value)) else None;
      match r.shippingDetails
      case None =>
        Some(PaymentData(r.googleApiVersion.value, r.googleApiMinor.value, r.paymentDetails,
                         r.billingDetails.value.email, None, selected))
      case Some(details) =>
        match AddressOf(details)
        case Some(address) =>
          Some(PaymentData(r.googleApiVersion.value, r.googleApiMinor.value, r.paymentDetails,
                           r.billingDetails.value.email, Some(address), selected))
        case None => None
  }

  // ---------------------------------------------------------------------
  // The button component
  // ---------------------------------------------------------------------

  /**
   * One Google Pay button. `configuration` is the orchestrator's own
   * configuration object, so every read sees the latest setter calls. The
   * provider client itself is foreign; the model keeps the options it was
   * created with.
   */
  class GooglePayImpl {
    const configuration: JudoPayConfiguration
    const height: string
    var paymentsClient: Option<PaymentsClientOptions>
    var paymentMethod: Option<PaymentMethod>

    constructor (configuration: JudoPayConfiguration, height: string)
      ensures this.configuration == configuration && this.height == height
      ensures paymentsClient.None? && paymentMethod.None?
    {
      this.configuration := configuration;
      this.height := height;
      paymentsClient := None;
      paymentMethod := None;
    }

    /**
     * Creates the client. The shipping callback is registered exactly when
     * shipping options are to be requested.
     */
    method SetPaymentsClient()
      modifies this`paymentsClient
      ensures paymentsClient.Some?
      ensures paymentsClient.value.environment == configuration.googlePayConfiguration.environment
      ensures paymentsClient.value.merchantName == configuration.displayName
      ensures paymentsClient.value.merchantId == configuration.googlePayConfiguration.merchantIdentifier
      ensures paymentsClient.value.paymentDataChangedRegistered
                == ShouldRequestShippingOptions(configuration.paymentDetails, configuration.paymentOptions)
    {
      paymentsClient := Some(PaymentsClientOptions(
        configuration.googlePayConfiguration.environment,
        configuration.displayName,
        configuration.googlePayConfiguration.merchantIdentifier,
        ShouldRequestShippingOptions(configuration.paymentDetails, configuration.paymentOptions)));
    }

    /** Derives the payment-method descriptor, once a client exists. */
    method SetGooglePayConfigs()
      modifies this`paymentMethod
      ensures paymentsClient.Some? ==> paymentMethod == Some(PaymentMethodFor(configuration.googlePayConfiguration))
      ensures paymentsClient.None? ==> paymentMethod == old(paymentMethod)
    {
      if paymentsClient.Some? {
        paymentMethod := Some(PaymentMethodFor(configuration.googlePayConfiguration));
      }
    }

    /** What the button does once the provider script has loaded: client, then descriptor. */
    method Configure()
      modifies this`paymentsClient, this`paymentMethod
      ensures paymentsClient.Some?
      ensures paymentsClient.value.paymentDataChangedRegistered
                == ShouldRequestShippingOptions(configuration.paymentDetails, configuration.paymentOptions)
      ensures paymentMethod == Some(PaymentMethodFor(configuration.googlePayConfiguration))
    {
      SetPaymentsClient();
      SetGooglePayConfigs();
    }

    /**
     * The payment data request built on click and handed to the provider's
     * sheet. `amountText` renders an option's currency symbol and amount the
     * way the host locale does.
     */
    method HandleGooglePayment(amountText: JudoPaymentShippingOption -> string) returns (request: PaymentDataRequest)
      ensures request.apiVersion == 2 && request.apiVersionMinor == 0
      ensures request.allowedPaymentMethods == [paymentMethod]
      ensures request.merchantInfo == MerchantInfo(configuration.googlePayConfiguration.merchantIdentifier,
                                                   configuration.displayName, configuration.domainName)
      ensures request.transactionInfo.totalPrice == CalculateTotalAmount(configuration.paymentDetails)
      ensures request.transactionInfo.totalPriceStatus == Estimated <==> configuration.paymentDetails.total.pending == Some(true)
      ensures request.transactionInfo.currencyCode == configuration.paymentDetails.total.amount.currency
      ensures request.transactionInfo.totalPriceLabel.None?
      ensures request.emailRequired == configuration.paymentOptions.requestPayerEmail
      ensures request.shippingAddressRequired == configuration.paymentOptions.requestShipping
      ensures request.shippingAddressParameters
                == Some(GetShippingParameters(configuration.googlePayConfiguration, configuration.paymentOptions))
      // shipping-option fields are set only when options are to be requested
      ensures ShouldRequestShippingOptions(configuration.paymentDetails, configuration.paymentOptions) ==>
                request.shippingOptionRequired == Some(true) &&
                request.shippingOptionParameters == GetShippingOptionParameters(configuration.paymentDetails, amountText)
      ensures !ShouldRequestShippingOptions(configuration.paymentDetails, configuration.paymentOptions) ==>
                request.shippingOptionRequired.None? && request.shippingOptionParameters.None?
      // the intents always start with PAYMENT_AUTHORIZATION; the two shipping intents follow together
      ensures request.callbackIntents.Some?
      ensures var intents := request.callbackIntents.value;
              && |intents| > 0 && intents[0] == PaymentAuthorization
              && (RegistersShippingIntents(configuration.paymentDetails, configuration.paymentOptions) ==>
                    intents == [PaymentAuthorization, ShippingAddress, ShippingOption])
              && (!RegistersShippingIntents(configuration.paymentDetails, configuration.paymentOptions) ==>
                    intents == [PaymentAuthorization])
    {
      var googlePayConfig := configuration.googlePayConfiguration;
      var details := configuration.paymentDetails;

      request := PaymentDataRequest(
        apiVersion := 2,
        apiVersionMinor := 0,
        allowedPaymentMethods := [paymentMethod],
        merchantInfo := MerchantInfo(googlePayConfig.merchantIdentifier, configuration.displayName, configuration.domainName),
        transactionInfo := TransactionInfo(
          if IsTrue(details.total.pending) then Estimated else Final,
          CalculateTotalAmount(details),
          None,
          details.total.amount.currency),
        emailRequired := None,
        shippingAddressRequired := None,
        shippingAddressParameters := None,
        shippingOptionRequired := None,
        shippingOptionParameters := None,
        callbackIntents := None);

      var isShippingRequired := configuration.paymentOptions.requestShipping;
      request := request.(emailRequired := configuration.paymentOptions.requestPayerEmail);
      request := request.(shippingAddressRequired := isShippingRequired);
      request := request.(shippingAddressParameters := Some(GetShippingParameters(googlePayConfig, configuration.paymentOptions)));

      var callbackIntents := [PaymentAuthorization];
      var shippingRequiredProp := configuration.paymentOptions.requestShipping;
      var shippingOptions := details.shippingOptions;
      if IsTrue(shippingRequiredProp) && shippingOptions.Some? {
        callbackIntents := callbackIntents + [ShippingAddress];
        callbackIntents := callbackIntents + [ShippingOption];
      }

      if ShouldRequestShippingOptions(details, configuration.paymentOptions) {
        request := request.(shippingOptionRequired := Some(true));
        request := request.(shippingOptionParameters := GetShippingOptionParameters(details, amountText));
      }

      request := request.(callbackIntents := Some(callbackIntents));
    }
  }
}
