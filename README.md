# LLM provider selection of the terminal agent

The terminal agent needs a language model. Its settings record holds
credentials for two providers: Google Gemini (an API key) and AWS Bedrock (an
access-key pair or a named profile, plus a region). This project models how
the agent picks the provider from those settings, and which model description
each provider builds. It proves that the choice has a fixed precedence, that
its outcomes are exhaustive and mutually exclusive, and when it fails.

- `settings.dfy` (module `AppSettings`): the `Settings` record with its field
  defaults. It also models Python truthiness of `str` (`IsSet`, meaning
  non-empty) and the string-valued `and`/`or` operators (`PyAnd`, `PyOr`).
- `llm_services.dfy` (module `LlmServices`): the two services as a tagged union
  `LlmService`. `GetModel` returns a `Model` descriptor that stands in for the
  library's model and provider objects. `GetLlmService` returns a `Result`
  whose error case is the `ValueError` the source raises. An independent
  reference definition (`FirstMatch` over `ProviderRules`) states the rule as
  an ordered list of conditions where the first match wins. A lemma proves that
  the if/elif/else chain agrees with it.

The Bedrock guard `(aws_access_key_id and aws_secret_access_key) or aws_profile_name`
is evaluated on strings as Python does. Its truthiness is then related to the
plain boolean condition.

## Model

| member | source | states |
|---|---|---|
| AppSettings.PyAnd | src/llm_services.py:50 | Python `a and b` on strings returns `b` when `a` is non-empty and `a` otherwise, and is truthy iff both operands are non-empty |
| AppSettings.PyOr | src/llm_services.py:49-51 | Python `a or b` on strings returns `a` when `a` is non-empty and `b` otherwise, and is truthy iff either operand is non-empty |
| LlmServices.LlmService.GetModel | src/llm_services.py:22-43 | a Google service gives a Google model built from the Gemini key and model name; a Bedrock service gives a Bedrock model with the Bedrock model name and region, using profile credentials exactly when the profile is non-empty and the key pair otherwise |
| LlmServices.GetLlmService | src/llm_services.py:46-57 | the chosen service keeps the given settings; Google is chosen iff the Gemini key is non-empty; Bedrock iff the key is empty and either the key pair is complete or a profile is set; otherwise the "No LLM provider configured" error |
| LlmServices.GeminiKeyWins | src/llm_services.py:47-48 | a non-empty Gemini key selects Google whatever the AWS fields hold |
| LlmServices.KeyPairSelectsBedrock | src/llm_services.py:49-52 | with no Gemini key, a complete access-key pair selects Bedrock |
| LlmServices.ProfileSelectsBedrock | src/llm_services.py:49-52 | with no Gemini key, a non-empty profile selects Bedrock even when the key pair is empty or half set |
| LlmServices.FailsExactlyWithoutCredentials | src/llm_services.py:46-57 | the selection fails with the "No LLM provider configured" error iff Gemini key and profile are empty and the key pair is incomplete |
| LlmServices.OutcomesExhaustiveAndExclusive | src/llm_services.py:46-57 | the settings split into three disjoint, exhaustive cases (Gemini key set; no key but AWS credentials; neither), which lead to Google, Bedrock and the error respectively |
| LlmServices.DefaultSettingsFail | src/settings.py:10-18 | the all-default settings (every credential empty) lead to the error |
| LlmServices.LoneAccessKeyIdFails | src/llm_services.py:49-57 | an access-key id without its secret, and nothing else set, leads to the error |
| LlmServices.SelectionDependsOnlyOnPresence | src/llm_services.py:46-57 | two records whose credential fields are empty in the same places reach the same outcome |
| LlmServices.EveryOutcomeReachable | src/llm_services.py:46-57 | each of the three outcomes is produced by some settings record, so no branch is dead |
| LlmServices.FirstMatch | src/llm_services.py:46-57 | reference rule: no provider iff no rule's condition holds; otherwise the provider of a rule that holds and is preceded only by rules that do not |
| LlmServices.SelectionIsFirstMatchingRule | src/llm_services.py:46-57 | the if/elif/else chain chooses the same provider as the first matching rule of Gemini key, then key pair, then profile |
| LlmServices.GoogleModelReadsOnlyGeminiFields | src/llm_services.py:22-24 | the Google model is built from exactly the Gemini key and model name; no other field changes it |
| LlmServices.BedrockProfileIgnoresKeyPair | src/llm_services.py:32-36 | with a profile set, the Bedrock model uses profile and region, and the key pair has no effect |
| LlmServices.BedrockUsesKeyPairWithoutProfile | src/llm_services.py:37-43 | with no profile, the Bedrock model uses key id, secret and region, with the Bedrock model name |
| LlmServices.SelectedModelHasCredentials | src/llm_services.py:31-52 | the model of a selected service never authenticates with an empty API key, an empty profile or an incomplete key pair |

## Left out

- Loading the settings from a `.env` file and from environment variables (src/settings.py:4-8, 21). This is file and environment I/O done by a library. Only the record's fields and defaults are modelled.
- Building the real `GoogleProvider`, `GoogleModel`, `BedrockProvider` and `BedrockModel` objects. They are foreign library objects, so `Model` is a plain descriptor of the arguments they receive.
- The abstract base class `LLMService` and the constructors storing `self.settings`. These become the two-case `LlmService` datatype carrying its settings. The source keeps a reference to one mutable `Settings` object and `get_model` reads it only when called; the datatype copies the values at selection time, so `SelectedModelHasCredentials` holds in the source only if nothing changes the settings between `get_llm_service` and `get_model` (no code in the repository does).
- src/main.py: one network call to Gemini and a `print`, with no logic of its own.
- test_timeout.py: it times real subprocesses, and its `main3` module is not part of this model.
- The shell-command executor, confirmation prompt and multi-turn agent loop. They appear only as test assertions in tests/test_main.py, and their implementation is not part of this model.
- The exception is modelled as the `Err` case of a `Result`, not as a raised `ValueError`.
