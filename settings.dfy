/** The configuration record of the agent: which LLM provider credentials and
    model names are available. Only the record's shape and its defaults are
    modelled; reading them from a `.env` file or the environment is not. */
module AppSettings {

  /** One field per configuration entry, all of them Python `str`. */
  datatype Settings = Settings(
    // Google Gemini
    geminiApiKey: string,
    geminiModelName: string,
    // AWS Bedrock
    awsAccessKeyId: string,
    awsSecretAccessKey: string,
    awsRegionName: string,
    awsProfileName: string,
    bedrockModelName: string
  )

  const DefaultGeminiModelName: string := "gemini-1.5-flash"
  const DefaultBedrockModelName: string := "anthropic.claude-3-sonnet-20240229-v1:0"

  /** The record built when neither the environment nor a `.env` file sets
      anything: every credential is the empty string. */
  const Default: Settings := Settings(
    geminiApiKey := "",
    geminiModelName := DefaultGeminiModelName,
    awsAccessKeyId := "",
    awsSecretAccessKey := "",
    awsRegionName := "",
    awsProfileName := "",
    bedrockModelName := DefaultBedrockModelName
  )

  /** Python truthiness of a `str`: a string is true exactly when it is non-empty. */
  predicate IsSet(value: string) {
    |value| > 0
  }

  /** Python's `a and b` on strings: `a` when `a` is false, otherwise `b`. */
  function PyAnd(a: string, b: string): (r: string)
    ensures IsSet(r) <==> IsSet(a) && IsSet(b)
    ensures IsSet(a) ==> r == b
    ensures !IsSet(a) ==> r == a
  {
    if IsSet(a) then b else a
  }

  /** Python's `a or b` on strings: `a` when `a` is true, otherwise `b`. */
  function PyOr(a: string, b: string): (r: string)
    ensures IsSet(r) <==> IsSet(a) || IsSet(b)
    ensures IsSet(a) ==> r == a
    ensures !IsSet(a) ==> r == b
  {
    if IsSet(a) then a else b
  }
}
