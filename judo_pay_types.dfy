/**
 * The merchant-facing records (src/models/JudoPayTypes.ts), and the one
 * configuration object that the orchestrator mutates and both buttons read.
 */
module JudoPayTypes {
  import opened Wrappers
  import opened ApplePayTypes
  import opened GooglePayTypes
  import opened GooglePaymentsApi

  /** `value` is the exact decimal the source carries as a string. */
  datatype JudoPaymentCurrencyAmount = JudoPaymentCurrencyAmount(value: real, currency: string)

  /** `label` is a reserved word in Dafny, so the label is `caption`. */
  datatype JudoPaymentItem = JudoPaymentItem(
    caption: string,
    description: Option<string>,
    amount: JudoPaymentCurrencyAmount,
    pending: Option<bool>)

  datatype JudoPaymentShippingOption = JudoPaymentShippingOption(
    id: string,
    caption: string,
    description: Option<string>,
    amount: JudoPaymentCurrencyAmount,
    selected: bool)

  /** `shippingOptions` being defined (possibly empty) is `Some`, absent is `None`. */
  datatype JudoPaymentDetails = JudoPaymentDetails(
    total: JudoPaymentItem,
    displayItems: Option<seq<JudoPaymentItem>>,
    shippingOptions: Option<seq<JudoPaymentShippingOption>>)

  datatype JudoPaymentOptions = JudoPaymentOptions(
    requestPayerEmail: Option<bool>,
    requestPayerName: Option<bool>,
    requestPayerPhone: Option<bool>,
    requestShipping: Option<bool>,
    shippingType: Option<string>)

  datatype JudoBillingDetails = JudoBillingDetails(
    name: Option<string>,
    email: Option<string>,
    phone: Option<string>)

  /** The unified postal address; every field is optional. */
  datatype JudoShippingDetails = JudoShippingDetails(
    addressLine: Option<seq<Option<string>>>,
    administrativeArea: Option<string>,
    city: Option<string>,
    country: Option<string>,
    countryCode: Option<string>,
    locality: Option<string>,
    dependentLocality: Option<string>,
    languageCode: Option<string>,
    organization: Option<string>,
    name: Option<string>,
    phone: Option<string>,
    postalCode: Option<string>,
    recipient: Option<string>,
    region: Option<string>,
    sortingCode: Option<string>)

  /** The unified response; `paymentDetails` is the provider's opaque card data. */
  datatype JudoPaymentResponse = JudoPaymentResponse(
    googleApiVersion: Option<int>,
    googleApiMinor: Option<int>,
    paymentDetails: PaymentMethodData,
    billingDetails: Option<JudoBillingDetails>,
    shippingDetails: Option<JudoShippingDetails>,
    shippingOptionSelected: Option<string>)

  /** JavaScript truthiness of an optional boolean: only a defined `true` counts. */
  predicate IsTrue(flag: Option<bool>) {
    flag == Some(true)
  }

  /**
   * The merchant's whole configuration. The orchestrator owns one instance
   * and updates its fields in place; the buttons are handed the same
   * instance, so they always read the latest values.
   */
  class JudoPayConfiguration {
    var displayName: string
    var domainName: string
    var countryCode: string
    var applePayConfiguration: ApplePayConfiguration
    var googlePayConfiguration: GooglePayConfiguration
    var paymentDetails: JudoPaymentDetails
    var paymentOptions: JudoPaymentOptions

    constructor (
      displayName: string,
      domainName: string,
      countryCode: string,
      applePayConfiguration: ApplePayConfiguration,
      googlePayConfiguration: GooglePayConfiguration,
      paymentDetails: JudoPaymentDetails,
      paymentOptions: JudoPaymentOptions)
      ensures this.displayName == displayName
      ensures this.domainName == domainName
      ensures this.countryCode == countryCode
      ensures this.applePayConfiguration == applePayConfiguration
      ensures this.googlePayConfiguration == googlePayConfiguration
      ensures this.paymentDetails == paymentDetails
      ensures this.paymentOptions == paymentOptions
    {
      this.displayName := displayName;
      this.domainName := domainName;
      this.countryCode := countryCode;
      this.applePayConfiguration := applePayConfiguration;
      this.googlePayConfiguration := googlePayConfiguration;
      this.paymentDetails := paymentDetails;
      this.paymentOptions := paymentOptions;
    }
  }
}
