/** The Google Pay enumerations and configuration record (src/models/GooglePayTypes.ts). */
module GooglePayTypes {
  import opened Wrappers

  datatype GooglePayButtonStyle = Black | White

  datatype GooglePayButtonType = Short | Long

  datatype GooglePayEnvironment = Test | Production

  datatype GooglePayMerchantCapability = Cryptogram3DS | PanOnly

  datatype GooglePaySupportedNetwork = Amex | Discover | Interac | Jcb | MasterCard | Visa

  datatype GooglePayCallbackIntent = PaymentAuthorization | ShippingAddress | ShippingOption

  datatype GooglePayConfiguration = GooglePayConfiguration(
    environment: GooglePayEnvironment,
    merchantIdentifier: string,
    merchantCapabilities: seq<GooglePayMerchantCapability>,
    supportedNetworks: seq<GooglePaySupportedNetwork>,
    allowedCountryCodes: Option<seq<string>>,
    buttonType: GooglePayButtonType,
    style: GooglePayButtonStyle)

  /** The string value of each capability, which is what the provider receives. */
  function CapabilityName(c: GooglePayMerchantCapability): string {
    match c
    case Cryptogram3DS => "CRYPTOGRAM_3DS"
    case PanOnly => "PAN_ONLY"
  }

  /** The string value of each network, which is what the provider receives. */
  function NetworkName(n: GooglePaySupportedNetwork): string {
    match n
    case Amex => "AMEX"
    case Discover => "DISCOVER"
    case Interac => "INTERAC"
    case Jcb => "JCB"
    case MasterCard => "MASTERCARD"
    case Visa => "VISA"
  }

  /** No two capabilities share a string value. */
  lemma CapabilityNameInjective()
    ensures forall a, b :: CapabilityName(a) == CapabilityName(b) ==> a == b
  {
  }

  /** No two networks share a string value. */
  lemma NetworkNameInjective()
    ensures forall a, b :: NetworkName(a) == NetworkName(b) ==> a == b
  {
  }
}
