/**
 * The Apple Pay button component (src/components/ApplePayButton/index.ts),
 * reduced to what it stores: the shared configuration, the language tag and
 * the height. The capability probe, the DOM element and its CSS classes are
 * not part of this model.
 */
module ApplePayButton {
  import opened JudoPayTypes

  class ApplePayImpl {
    const configuration: JudoPayConfiguration
    const language: string
    const height: string

    /** Parameters in the component's own order: language before height. */
    constructor (configuration: JudoPayConfiguration, language: string, height: string)
      ensures this.configuration == configuration
      ensures this.language == language && this.height == height
    {
      this.configuration := configuration;
      this.language := language;
      this.height := height;
    }
  }
}
