/**
 * The values the Google Pay component exchanges with the provider's
 * `google.payments.api` client: what it sends (client options, payment
 * method, payment data request, live-callback answers) and what it reads
 * back (the payment payload and the in-sheet change notification). The
 * provider itself is not part of this model; only these shapes are.
 */
module GooglePaymentsApi {
  import opened Wrappers
  import opened GooglePayTypes

  /** The descriptor of the one accepted payment method: a card, tokenised by a gateway. */
  datatype PaymentMethod = PaymentMethod(
    methodType: string,
    allowedAuthMethods: seq<string>,
    allowedCardNetworks: seq<string>,
    tokenizationType: string,
    gateway: string,
    gatewayMerchantId: string)

  /**
   * The options the payments client is created with. The two live callbacks
   * are functions in the source; the model records whether the shipping one
   * is registered (`onPaymentAuthorized` always is).
   */
  datatype PaymentsClientOptions = PaymentsClientOptions(
    environment: GooglePayEnvironment,
    merchantName: string,
    merchantId: string,
    paymentDataChangedRegistered: bool)

  datatype MerchantInfo = MerchantInfo(merchantId: string, merchantName: string, merchantOrigin: string)

  datatype TotalPriceStatus = Estimated | Final

  /** Amounts are exact; the decimal string the source sends is not modelled. */
  datatype TransactionInfo = TransactionInfo(
    totalPriceStatus: TotalPriceStatus,
    totalPrice: real,
    totalPriceLabel: Option<string>,
    currencyCode: string)

  datatype ShippingAddressParameters = ShippingAddressParameters(
    allowedCountryCodes: Option<seq<string>>,
    phoneNumberRequired: Option<bool>)

  /** `label` is a reserved word in Dafny, so labels are called `caption` throughout. */
  datatype SelectionOption = SelectionOption(id: string, caption: string, description: Option<string>)

  datatype ShippingOptionParameters = ShippingOptionParameters(
    defaultSelectedOptionId: string,
    shippingOptions: seq<SelectionOption>)

  /** A field that is never assigned, or is assigned `undefined`, is `None`. */
  datatype PaymentDataRequest = PaymentDataRequest(
    apiVersion: int,
    apiVersionMinor: int,
    allowedPaymentMethods: seq<Option<PaymentMethod>>,
    merchantInfo: MerchantInfo,
    transactionInfo: TransactionInfo,
    emailRequired: Option<bool>,
    shippingAddressRequired: Option<bool>,
    shippingAddressParameters: Option<ShippingAddressParameters>,
    shippingOptionRequired: Option<bool>,
    shippingOptionParameters: Option<ShippingOptionParameters>,
    callbackIntents: Option<seq<GooglePayCallbackIntent>>)

  datatype SelectionOptionData = SelectionOptionData(id: string)

  /** What `onPaymentDataChanged` receives while the sheet is open. */
  datatype IntermediatePaymentData = IntermediatePaymentData(
    callbackTrigger: string,
    shippingOptionData: SelectionOptionData)

  /** The answer to `onPaymentDataChanged`; `{}` is `PaymentDataRequestUpdate(None)`. */
  datatype PaymentDataRequestUpdate = PaymentDataRequestUpdate(newTransactionInfo: Option<TransactionInfo>)

  /** The answer to `onPaymentAuthorized`. */
  datatype PaymentAuthorizationResult = PaymentAuthorizationResult(transactionState: string)

  datatype Address = Address(
    name: Option<string>,
    postalCode: Option<string>,
    countryCode: Option<string>,
    phoneNumber: Option<string>,
    address1: Option<string>,
    address2: Option<string>,
    address3: Option<string>,
    locality: Option<string>,
    administrativeArea: Option<string>,
    sortingCode: Option<string>)

  /** The tokenised card data; opaque to this system and passed through. */
  datatype PaymentMethodData = PaymentMethodData(
    methodType: string,
    description: string,
    tokenizationType: string,
    token: string)

  /** The payload `loadPaymentData` resolves with. */
  datatype PaymentData = PaymentData(
    apiVersion: int,
    apiVersionMinor: int,
    paymentMethodData: PaymentMethodData,
    email: Option<string>,
    shippingAddress: Option<Address>,
    shippingOptionData: Option<SelectionOptionData>)
}
