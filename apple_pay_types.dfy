/** The Apple Pay enumerations and configuration record (src/models/ApplePayTypes.ts). */
module ApplePayTypes {

  datatype ApplePayButtonStyle = Black | White | WhiteWithLine

  datatype ApplePayButtonType = Plain | Buy | Donate | Checkout | Book | Setup | Subscribe

  datatype ApplePaySupportedNetwork =
    Amex | ChinaUnionPay | Discover | Interac | MasterCard | PrivateLabel | Visa

  datatype ApplePayMerchantCapability = Supports3DS | SupportsCredit

  /** `type` is a reserved word in Dafny, so the button type is `buttonType`. */
  datatype ApplePayConfiguration = ApplePayConfiguration(
    merchantIdentifier: string,
    merchantCapabilities: seq<ApplePayMerchantCapability>,
    supportedNetworks: seq<ApplePaySupportedNetwork>,
    certificate: string,
    key: string,
    style: ApplePayButtonStyle,
    buttonType: ApplePayButtonType)
}
