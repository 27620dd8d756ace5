/**
 * The record shapes of types.ts and the JavaScript values a `catch` clause
 * can receive.
 */
module Types {
  import opened Wrappers

  /**
   * One scene of a breakdown. JSON numbers are exact reals here.
   * `translatedText` is optional in the source; `None` stands for an absent
   * field.
   */
  datatype Scene = Scene(
    sceneNumber: real,
    originalText: string,
    translatedText: Option<string>,
    visualDescription: string,
    imagePrompt: string)

  /**
   * An aspect-ratio choice (the `Option` interface of types.ts). The optional
   * `isCustom` flag is `false` where the source leaves it out, which JavaScript
   * reads the same way.
   */
  datatype AspectRatioOption = AspectRatioOption(id: string, name: string, value: string, isCustom: bool)

  /** A theme with its reading speed in words per second. */
  datatype ThemeOption = ThemeOption(id: string, name: string, wps: real, isCustom: bool)

  /** An image style with the prompt text it inserts. */
  datatype StyleOption = StyleOption(id: string, name: string, prompt: string, isCustom: bool)

  /**
   * A thrown value: an `Error` with its message, or anything else (a string,
   * `null`, an object that is not an `Error`).
   */
  datatype Thrown = ErrorWith(message: string) | NonError
}
