/** Choosing the LLM provider from the settings, and describing the model
    object each provider builds. */
module LlmServices {
  import opened AppSettings

  /** The exception raised when no provider can be chosen. */
  datatype ValueError = ValueError(message: string)

  const NoProviderConfigured: ValueError :=
    ValueError("No LLM provider configured. Please set either Google or AWS Bedrock credentials.")

  datatype Result<T> = Ok(value: T) | Err(error: ValueError)

  /** How the Google provider authenticates. */
  datatype GoogleProvider = GoogleProvider(apiKey: string)

  /** How the Bedrock provider authenticates: a named AWS profile, or an
      explicit access-key pair. */
  datatype BedrockProvider =
    | ProfileCreds(profileName: string, regionName: string)
    | KeyCreds(accessKeyId: string, secretAccessKey: string, regionName: string)

  /** A description of the model object handed to the agent: the model's name
      and the provider that serves it. */
  datatype Model =
    | GoogleModel(modelName: string, google: GoogleProvider)
    | BedrockModel(modelName: string, bedrock: BedrockProvider)

  /** The two services; each keeps the settings it was built from. */
  datatype LlmService = GoogleService(settings: Settings) | BedrockService(settings: Settings)
  {
    /** The model this service serves. A Google service uses the Gemini key
        and model name; a Bedrock service uses the profile when one is set and
        the access-key pair otherwise, in the configured region. */
    function GetModel(): (m: Model)
      ensures m.GoogleModel? <==> GoogleService?
      ensures m.GoogleModel? ==>
        m.modelName == settings.geminiModelName && m.google.apiKey == settings.geminiApiKey
      ensures m.BedrockModel? ==>
        m.modelName == settings.bedrockModelName && m.bedrock.regionName == settings.awsRegionName
      ensures m.BedrockModel? ==> (m.bedrock.ProfileCreds? <==> IsSet(settings.awsProfileName))
      ensures m.BedrockModel? && m.bedrock.ProfileCreds? ==>
        m.bedrock.profileName == settings.awsProfileName
      ensures m.BedrockModel? && m.bedrock.KeyCreds? ==>
        m.bedrock.accessKeyId == settings.awsAccessKeyId
        && m.bedrock.secretAccessKey == settings.awsSecretAccessKey
    {
      match this
      case GoogleService(s) =>
        GoogleModel(s.geminiModelName, GoogleProvider(s.geminiApiKey))
      case BedrockService(s) =>
        var provider :=
          if IsSet(s.awsProfileName) then
            ProfileCreds(s.awsProfileName, s.awsRegionName)
          else
            KeyCreds(s.awsAccessKeyId, s.awsSecretAccessKey, s.awsRegionName);
        BedrockModel(s.bedrockModelName, provider)
    }
  }

  /** Bedrock can be used when the access-key pair is complete or a profile is named. */
  predicate HasAwsCredentials(s: Settings) {
    (IsSet(s.awsAccessKeyId) && IsSet(s.awsSecretAccessKey)) || IsSet(s.awsProfileName)
  }

  /** The provider choice: a Gemini key wins; otherwise AWS credentials select
      Bedrock; otherwise the choice fails. The Bedrock guard is evaluated as
      the Python expression `(key_id and secret) or profile` on strings. */
  function GetLlmService(s: Settings): (r: Result<LlmService>)
    ensures r.Ok? ==> r.value.settings == s
    ensures (r.Ok? && r.value.GoogleService?) <==> IsSet(s.geminiApiKey)
    ensures (r.Ok? && r.value.BedrockService?) <==> !IsSet(s.geminiApiKey) && HasAwsCredentials(s)
    ensures r.Err? ==> r.error == NoProviderConfigured
  {
    if IsSet(s.geminiApiKey) then
      Ok(GoogleService(s))
    else if IsSet(PyOr(PyAnd(s.awsAccessKeyId, s.awsSecretAccessKey), s.awsProfileName)) then
      Ok(BedrockService(s))
    else
      Err(NoProviderConfigured)
  }

  // ---------------------------------------------------------------------------
  // Properties of the selection rule

  /** A non-empty Gemini key selects Google whatever the AWS fields hold. */
  lemma GeminiKeyWins(s: Settings)
    requires IsSet(s.geminiApiKey)
    ensures GetLlmService(s) == Ok(GoogleService(s))
  {
  }

  /** Without a Gemini key, a complete access-key pair selects Bedrock. */
  lemma KeyPairSelectsBedrock(s: Settings)
    requires !IsSet(s.geminiApiKey)
    requires IsSet(s.awsAccessKeyId) && IsSet(s.awsSecretAccessKey)
    ensures GetLlmService(s) == Ok(BedrockService(s))
  {
  }

  /** Without a Gemini key, a named profile selects Bedrock, whether the key
      pair is empty, half set or complete. */
  lemma ProfileSelectsBedrock(s: Settings)
    requires !IsSet(s.geminiApiKey) && IsSet(s.awsProfileName)
    ensures GetLlmService(s) == Ok(BedrockService(s))
  {
  }

  /** The choice fails, with the "No LLM provider configured" error, exactly
      when there is no Gemini key, no profile, and the key pair is not complete. */
  lemma FailsExactlyWithoutCredentials(s: Settings)
    ensures GetLlmService(s) == Err(NoProviderConfigured) <==>
      !IsSet(s.geminiApiKey) && !IsSet(s.awsProfileName)
      && !(IsSet(s.awsAccessKeyId) && IsSet(s.awsSecretAccessKey))
  {
  }

  /** The settings split into three disjoint cases that together cover every
      record, and each case has its own outcome: Google, Bedrock or the error. */
  lemma OutcomesExhaustiveAndExclusive(s: Settings)
    ensures var google := IsSet(s.geminiApiKey);
      var bedrock := !IsSet(s.geminiApiKey) && HasAwsCredentials(s);
      var none := !IsSet(s.geminiApiKey) && !HasAwsCredentials(s);
      (google || bedrock || none) && !(google && bedrock) && !(google && none) && !(bedrock && none)
    ensures IsSet(s.geminiApiKey) ==> GetLlmService(s) == Ok(GoogleService(s))
    ensures !IsSet(s.geminiApiKey) && HasAwsCredentials(s) ==> GetLlmService(s) == Ok(BedrockService(s))
    ensures !IsSet(s.geminiApiKey) && !HasAwsCredentials(s) ==> GetLlmService(s) == Err(NoProviderConfigured)
  {
  }

  /** The default settings name no provider, so the choice fails. */
  lemma DefaultSettingsFail()
    ensures GetLlmService(Default) == Err(NoProviderConfigured)
  {
  }

  /** A lone access-key id, without its secret, is not enough. */
  lemma LoneAccessKeyIdFails()
    ensures GetLlmService(Default.(awsAccessKeyId := "AKIAEXAMPLE")) == Err(NoProviderConfigured)
  {
  }

  /** The outcome depends only on which credential fields are empty: two
      records that agree on that reach the same outcome kind. */
  lemma SelectionDependsOnlyOnPresence(a: Settings, b: Settings)
    requires IsSet(a.geminiApiKey) == IsSet(b.geminiApiKey)
    requires IsSet(a.awsAccessKeyId) == IsSet(b.awsAccessKeyId)
    requires IsSet(a.awsSecretAccessKey) == IsSet(b.awsSecretAccessKey)
    requires IsSet(a.awsProfileName) == IsSet(b.awsProfileName)
    ensures GetLlmService(a).Ok? == GetLlmService(b).Ok?
    ensures GetLlmService(a).Ok? ==>
      GetLlmService(a).value.GoogleService? == GetLlmService(b).value.GoogleService?
  {
  }

  /** Each of the three outcomes is reached by some settings record: no branch
      of the rule is dead. */
  lemma EveryOutcomeReachable()
    ensures exists s :: GetLlmService(s).Ok? && GetLlmService(s).value.GoogleService?
    ensures exists s :: GetLlmService(s).Ok? && GetLlmService(s).value.BedrockService?
    ensures exists s :: GetLlmService(s).Err?
  {
    var google := Default.(geminiApiKey := "key");
    assert GetLlmService(google).value.GoogleService?;
    var bedrock := Default.(awsProfileName := "default");
    assert GetLlmService(bedrock).value.BedrockService?;
    assert GetLlmService(Default).Err?;
  }

  // ---------------------------------------------------------------------------
  // An independent statement of the rule: an ordered list of (condition,
  // provider) rules where the first one that holds wins.

  datatype Condition = GeminiKeySet | AccessKeyPairSet | ProfileSet
  datatype Provider = Google | Bedrock

  predicate Holds(c: Condition, s: Settings) {
    match c
    case GeminiKeySet => IsSet(s.geminiApiKey)
    case AccessKeyPairSet => IsSet(s.awsAccessKeyId) && IsSet(s.awsSecretAccessKey)
    case ProfileSet => IsSet(s.awsProfileName)
  }

  /** The precedence of the providers, highest first. */
  const ProviderRules: seq<(Condition, Provider)> :=
    [(GeminiKeySet, Google), (AccessKeyPairSet, Bedrock), (ProfileSet, Bedrock)]

  datatype Option<T> = None | Some(value: T)

  /** The provider of the first rule whose condition holds, if any. */
  function FirstMatch(rules: seq<(Condition, Provider)>, s: Settings): (r: Option<Provider>)
    ensures r.None? <==> forall i :: 0 <= i < |rules| ==> !Holds(rules[i].0, s)
    ensures r.Some? ==>
      exists i :: 0 <= i < |rules| && Holds(rules[i].0, s) && rules[i].1 == r.value
        && forall j :: 0 <= j < i ==> !Holds(rules[j].0, s)
  {
    if |rules| == 0 then None
    else if Holds(rules[0].0, s) then Some(rules[0].1)
    else
      var r := FirstMatch(rules[1..], s);
      assert forall i :: 1 <= i < |rules| ==> rules[i] == rules[1..][i - 1];
      r
  }

  function ProviderOf(r: Result<LlmService>): Option<Provider> {
    match r
    case Err(_) => None
    case Ok(GoogleService(_)) => Some(Google)
    case Ok(BedrockService(_)) => Some(Bedrock)
  }

  /** The if/elif/else chain chooses the same provider as the rule list. */
  lemma SelectionIsFirstMatchingRule(s: Settings)
    ensures ProviderOf(GetLlmService(s)) == FirstMatch(ProviderRules, s)
  {
    var rules := ProviderRules;
    assert rules[1..] == [(AccessKeyPairSet, Bedrock), (ProfileSet, Bedrock)];
    assert rules[1..][1..] == [(ProfileSet, Bedrock)];
    assert rules[1..][1..][1..] == [];
    var rest := FirstMatch(rules[1..][1..], s);
    assert rest == if Holds(ProfileSet, s) then Some(Bedrock) else None;
    assert FirstMatch(rules[1..], s)
      == if Holds(AccessKeyPairSet, s) then Some(Bedrock) else rest;
  }

  // ---------------------------------------------------------------------------
  // Properties of the model descriptions

  /** The Google model reads the Gemini key and model name and no other field. */
  lemma GoogleModelReadsOnlyGeminiFields(a: Settings, b: Settings)
    requires a.geminiApiKey == b.geminiApiKey && a.geminiModelName == b.geminiModelName
    ensures GoogleService(a).GetModel() == GoogleService(b).GetModel()
      == GoogleModel(a.geminiModelName, GoogleProvider(a.geminiApiKey))
  {
  }

  /** With a profile named, Bedrock ignores the key pair entirely. */
  lemma BedrockProfileIgnoresKeyPair(s: Settings, keyId: string, secret: string)
    requires IsSet(s.awsProfileName)
    ensures BedrockService(s).GetModel()
      == BedrockService(s.(awsAccessKeyId := keyId, awsSecretAccessKey := secret)).GetModel()
      == BedrockModel(s.bedrockModelName, ProfileCreds(s.awsProfileName, s.awsRegionName))
  {
  }

  /** Without a profile, Bedrock authenticates with the key pair. */
  lemma BedrockUsesKeyPairWithoutProfile(s: Settings)
    requires !IsSet(s.awsProfileName)
    ensures BedrockService(s).GetModel() == BedrockModel(s.bedrockModelName,
      KeyCreds(s.awsAccessKeyId, s.awsSecretAccessKey, s.awsRegionName))
  {
  }

  /** The model of a service that the selection returns never authenticates
      with an empty API key, an empty profile or an incomplete key pair. */
  lemma SelectedModelHasCredentials(s: Settings)
    requires GetLlmService(s).Ok?
    ensures var m := GetLlmService(s).value.GetModel();
      match m
      case GoogleModel(_, p) => IsSet(p.apiKey)
      case BedrockModel(_, ProfileCreds(profile, _)) => IsSet(profile)
      case BedrockModel(_, KeyCreds(id, secret, _)) => IsSet(id) && IsSet(secret)
  {
  }
}
