# OpenAI integration adapter: dispatch, envelopes and bootstrap seeding

This project models the core of the `open_ai` integration of the carrier-io platform
in Dafny and proves properties of that model. The integration lets the host
application call an OpenAI model through one interface. The model covers two parts:

- **The RPC entry points** (`rpc/main.py`), modelled as pure functions.
  - `predict` looks up the capability flags of the configured model: the first entry
    of `settings['models']` whose id is `settings['model_name']`, or an empty map.
  - It then chooses the chat predictor, else the text predictor, else rejects the
    request. Every outcome is turned into an `{ok, response}` or `{ok, error}`
    dictionary (the *envelope*). Any exception raised inside the `try` is caught
    (see "Left out" for exceptions that are not `Exception` subclasses).
  - `chat_completion`, `completion` and `parse_settings` return envelopes of the same
    two shapes. Their keys and error texts differ slightly.
  - `set_models` tries the legacy `Model.list` call first, then the modern
    `client.models.list()`, and falls back to an empty list.
- **The bootstrap seeding** of `Module.init` (`module.py`), modelled imperatively.
  It reads every secret from the vault. For each of the two default-table keys that is
  missing, it stores the JSON text of the default table under that key and writes the
  whole map back. The two static tables (`CAPATIBILITIES_MAP`, `TOKEN_LIMITS`) are
  constants whose shape is proved. Their stored JSON texts are proved to read back as
  the tables.

Files:

- `outcomes.dfy` (module `Outcomes`): `Option`, Python exception objects, and the
  `Outcome` (returned or raised) of a call into code outside the model.
- `envelopes.dfy` (module `Envelopes`): the envelope dictionary, its invariant
  (`WellFormed`: exactly one of payload and error, selected by `ok`), and its
  constructors.
- `rpc.dfy` (module `Rpc`): capability lookup, dispatch precedence, `predict`,
  `chat_completion`, `completion`, `parse_settings`, `set_models`, and end-to-end
  scenarios.
- `json_text.dfy` (module `JsonText`): the text `json.dumps` writes for the two tables,
  and a reader for each piece (string, number, array, object). Each reader is the
  inverse of its writer on the writer's output.
- `default_tables.dfy` (module `DefaultTables`): the two tables and their properties.
- `bootstrap.dfy` (module `Bootstrap`): the vault as a class (`Vault`), the seeding
  method, and the specification function `Seeded` with its lemmas.

All calls into code that is not part of the model are parameters of the functions
that make them. These are `predict_chat`, `predict_text`, `predict_chat_from_request`,
`predict_from_request`, `OpenAISettings.parse_obj`, `Model.list` and
`client.models.list`. Each is a function value. All but the validator return
`Returned(value)` or `Raised(exception)`. `OpenAISettings.parse_obj` returns a
`Validation` instead: `Parsed(settings)`, `Invalid(error)` for a `ValidationError`,
or `Crashed(exception)` for any other exception. A branch that does not call such a function cannot be affected
by it. So "the predictor is never called" is proved by showing that the result stays
the same when that function is replaced by any other.

Two behaviours of the code that are easy to overlook:

- `predict` reads only `settings['models']` (rpc/main.py:18-19). The default tables
  seeded into the vault are not consulted there.
- `parse_settings` catches only `ValidationError` (rpc/main.py:65). Any other
  exception from the validator leaves the function, so `ParseSettings` returns
  `Raised` for it.

One edge case of the code is modelled as written. `settings['model_name']` is read
outside the `try`, once for each model entry up to and including the first match,
because `next` stops at the first match (rpc/main.py:19). With entries present and no
`model_name`, the `KeyError` leaves `predict`, and `Predict` requires `CanLookUp` to
rule that out. With no entries, the first read of `model_name` happens inside the
`try`, while formatting the rejection message (rpc/main.py:29). That `KeyError` is
caught and reported as `<class 'KeyError'>: 'model_name'`
(`MissingModelNameScenario`).

## Model

| member | source | states |
|---|---|---|
| `Envelopes.Success` | rpc/main.py:34 | A success envelope is well formed and reports ok. It holds exactly the given value under the payload key and nothing besides "ok". |
| `Envelopes.Failure` | rpc/main.py:32 | A failure envelope is well formed for every payload key and does not report ok. It holds the given error under "error". |
| `Envelopes.ExactlyOneOf` | rpc/main.py:30-34 | In a well-formed envelope the payload key is present exactly when ok is true, and "error" exactly when ok is false. |
| `Rpc.FirstMatch` | rpc/main.py:19 | The index returned holds the requested id and no earlier entry does. `None` is returned exactly when no entry holds that id. |
| `Rpc.LookupCapabilities` | rpc/main.py:18-19 | The capabilities are those of the first entry whose id equals `model_name`. They are the empty map when no entry matches, which includes a missing "models" key. |
| `Rpc.LookupFindsListedModel` | rpc/main.py:18-19 | When ids are distinct, a listed model gets exactly its own entry's capabilities. |
| `Rpc.SelectPathPrecedence` | rpc/main.py:22-29 | Chat is chosen exactly when its flag is truthy, even when completion is truthy too. Text is chosen exactly when chat is falsy and completion truthy. Otherwise the request is rejected. The choice equals the ordered preference list `[chat_completion, completion]`. |
| `Rpc.UnsupportedModel` | rpc/main.py:28-29 | A named model is rejected with a plain `Exception`. Without "model_name", formatting the message raises `KeyError('model_name')` instead. |
| `Rpc.Normalise` | rpc/main.py:30-34 | The envelope is well formed. It is ok exactly when the call returned, and then holds the returned value unmodified. Otherwise it holds the exception rendered with its class. |
| `Rpc.Predict` | rpc/main.py:16-34 | The envelope is well formed. With a truthy chat flag it is the chat predictor's normalised outcome. Else, with a truthy completion flag, it is the text predictor's. Otherwise it is a failure naming the unsupported model. |
| `Rpc.PredictRejectsUnsupported` | rpc/main.py:28-32 | A model with neither flag gets ok=false and the exact unsupported-model message. The result is the same for any predictors, so neither is called. |
| `Rpc.PredictUnknownModel` | rpc/main.py:18-32 | A model name that matches no entry, or an absent models list, gives exactly the failure envelope `<class 'Exception'>: Model NAME does not support chat or text completion`, for any predictors. |
| `Rpc.PredictCallsOnlySelected` | rpc/main.py:22-27 | On the chat path the text predictor has no influence. When chat is not selected, the chat predictor has no influence. |
| `Rpc.PredictPrefixesClass` | rpc/main.py:30-44 | For the same raised exception, `predict`'s error is `<class 'T'>: ` followed by exactly `chat_completion`'s error. |
| `Rpc.ChatCompletion` | rpc/main.py:38-46 | The envelope is well formed and ok exactly when `predict_chat_from_request` returned. It then holds the result unmodified; otherwise the error is `str(e)` alone. |
| `Rpc.Completion` | rpc/main.py:50-58 | The same contract as `ChatCompletion`, over `predict_from_request`. |
| `Rpc.ParseSettings` | rpc/main.py:62-67 | Parsed settings come back under "item" with ok=true. A `ValidationError` comes back as the error object itself with ok=false. Never both keys. Any other exception escapes unchanged. |
| `Rpc.SetModels` | rpc/main.py:76-92 | A returning legacy listing is used. Otherwise a returning modern listing is used. The result is `NoModels` exactly when both listing calls raise, and no exception of those two calls escapes. |
| `Rpc.SetModelsFallbackOnly` | rpc/main.py:76-92 | The modern call is irrelevant when the legacy call returns. Once the legacy call raises, `api_type` and `api_version` do not affect the result. |
| `Rpc.ChatScenario` | rpc/main.py:16-34 | With settings listing `gpt-4` as a chat model and a chat predictor that returns a payload, `predict` returns `{ok: true, response: payload}`. |
| `Rpc.EmbeddingScenario` | rpc/main.py:16-32 | A model listed only with the embeddings flag is rejected with the unsupported-model message. |
| `Rpc.TransportErrorScenario` | rpc/main.py:21-32 | A raising chat predictor gives `{ok: false, error: "<class 'T'>: message"}`. |
| `Rpc.MissingModelNameScenario` | rpc/main.py:18-32 | With no "model_name" and no models, the `KeyError` inside the `try` is caught and reported as `<class 'KeyError'>: 'model_name'`. |
| `JsonText.Escaped` | module.py:84 | Escaping never shortens a string, and its result is in escaped form: plain characters other than `"` and `\`, or the escapes `\"` and `\\`. |
| `JsonText.ReadCharsEscaped` | module.py:84 | Read after the opening quote, an escaped string ends at exactly the quote written after it and gives the original string back, whatever text follows. So no literal is closed early. |
| `JsonText.Quoted` | module.py:84 | A string is written between double quotes. |
| `JsonText.QuotedRoundTrip` | module.py:84 | A string literal reads back as its string, and the reader stops right after it. |
| `JsonText.ReadCharsRefusesOtherEscapes` | module.py:84 | An escape other than `\"` and `\\` is refused, not read as its letter. |
| `JsonText.QuotedInjective` | module.py:84 | Distinct strings are written as distinct literals. |
| `JsonText.Decimal` | module.py:87 | A number is written as one or more decimal digits, with no leading zero: a text starting with `0` is exactly `0`. |
| `JsonText.DecimalRoundTrip` | module.py:87 | The digits written for `n` denote `n`. |
| `JsonText.OptionalNumber` | module.py:87 | `None` is written `null`, and only `None` is. A known limit is written as one or more digits, with no leading zero, that denote it. |
| `JsonText.ReadOptionalNumberRefusesLeadingZero` | module.py:87 | A run of digits with a leading zero, such as `007`, is refused. |
| `JsonText.OptionalNumberRoundTrip` | module.py:87 | A limit reads back as itself, `null` as `None`, when the next character is not a digit. |
| `JsonText.Joined` | module.py:84-87 | With one piece the text is that piece; otherwise it starts with the first piece. |
| `JsonText.ReadItemsJoined` | module.py:84-87 | Pieces joined by `", "` and followed by the closing character read back as every element, in order, provided each piece reads back as its element. |
| `JsonText.StringArray` | module.py:84 | An id list is written in brackets, `[]` when empty, and starts with the first id's literal. |
| `JsonText.StringArrayRoundTrip` | module.py:84 | An array of strings reads back as all its elements, in order, whatever text follows. |
| `JsonText.StringArrayInjective` | module.py:84 | Distinct id lists are written as distinct arrays. |
| `JsonText.Object` | module.py:84-87 | A table is written in braces, `{}` when empty, and starts with its first member: the key's literal, `: ` and the value. |
| `JsonText.ObjectRoundTrip` | module.py:84-87 | An object reads back as the whole table, entry by entry in insertion order, provided each member's text reads back as its entry. |
| `JsonText.ArrayTableRoundTrip` | module.py:84 | Any table from names to string lists is written as an object that reads back as exactly that table. |
| `JsonText.LimitTableRoundTrip` | module.py:87 | Any table from names to optional limits is written as an object that reads back as exactly that table. |
| `DefaultTables.CapabilitiesJson` | module.py:84 | The text stored under `open_ai_capatibilities_map` reads back as `CAPATIBILITIES_MAP`, every mode and id in order. |
| `DefaultTables.TokenLimitsJson` | module.py:87 | The text stored under `open_ai_token_limits` reads back as `TOKEN_LIMITS`, every id and limit in order. |
| `DefaultTables.ModeListsDisjoint` | module.py:28-36 | The completion, chat_completion and embeddings lists are pairwise disjoint. |
| `DefaultTables.TokenLimitsWellFormed` | module.py:38-54 | Every known token limit is positive. The only `None` (unknown) limit is that of `text-embedding-ada-002`. |
| `DefaultTables.LimitsCoverage` | module.py:28-54 | Every id of the capability table has a token-limit entry except `gpt-4o-mini`, `gpt-4o` and `gpt-4-turbo`. |
| `Bootstrap.Seeded` | module.py:82-88 | After seeding, both default keys are present and the key set is the old one plus those two. No existing value is overwritten, so every other key keeps its value. Each missing key gets its serialised default table. |
| `Bootstrap.MissingDefaultsBounds` | module.py:83-88 | Seeding writes at most twice, and writes nothing exactly when both keys are already stored. |
| `Bootstrap.MissingDefaultsCount` | module.py:83-88 | The number of writes is one for each missing key, counted key by key. |
| `Bootstrap.SeedingIdempotent` | module.py:83-88 | Seeding its own output leaves the map unchanged and needs zero writes. |
| `Bootstrap.SeededStepwise` | module.py:83-88 | `Seeded`, defined at once as the default tables overlaid by the stored secrets, equals the source's two guarded insertions applied in order. |
| `Bootstrap.SeedDefaults` | module.py:81-88 | The vault ends up holding `Seeded` of what it held, after one `set_secrets` call per missing default key. |
| `Bootstrap.SeedTwice` | module.py:81-88 | A second activation changes neither the store nor the call count. |
| `Bootstrap.Vault.GetAllSecrets` | module.py:82 | Returns every stored secret. |
| `Bootstrap.Vault.SetSecrets` | module.py:85-88 | Replaces the stored secrets with the given map and counts the call. |

## Left out

- The internals of `predict_chat`, `predict_text`, `predict_chat_from_request` and `predict_from_request` (utils, not part of this model). Each is a parameter returning a value or raising.
- The openai listing calls and their imports (rpc/main.py:77-89) are parameters too. A failed import counts as a raised exception, as it does in the source.
- Normalisation of the listed records into `AIModel` dictionaries (rpc/main.py:94-99). It depends on `AIModel` (not part of this model) and on Python duck typing. `SetModels` returns the raw listing instead, or `NoModels` for the empty list.
- SetModels: the normalisation step can itself end in `[]`, when a returned listing has an empty or missing `data` (`.get('data', [])`), or raise, because line 99 is outside every `try` and `AIModel` validation or a missing attribute there escapes. `SetModels` keeps the two apart: a returned empty listing gives `Listed`, and only two raising calls give `NoModels`. The source merges them, because both end as `[]` (rpc/main.py:92 and 96-97). No exception of the normalisation step is modelled.
- Normalise, Guarded, Predict, ChatCompletion, Completion, SetModels: every raised exception is treated as an `Exception` subclass, which the source's `except Exception` clauses (rpc/main.py:30, 42, 54, 81, 90) catch. A `BaseException` that is not an `Exception`, such as `KeyboardInterrupt` or `SystemExit`, escapes those handlers in Python; the model has no such exceptions.
- Resolution of the API key by `SecretField.unsecret` (rpc/main.py:72). It is secret-store I/O, so `SetModels` receives the resolved key.
- The schema of `OpenAISettings.parse_obj` (not part of this model). The validator is a parameter, so listing every invalid field at once is the validator's concern.
- Logging, `format_exc`, and the `web.rpc` and `rpc_tools.wrap_exceptions` decorators. These are host glue; an exception that escapes an entry point is modelled as escaping.
- Registration with the RPC manager and the worker client (module.py:66-79, 90-107), `descriptor.init_all` and `deinit`. These are lifecycle glue whose callbacks are not part of this model.
- The `KeyError` and `TypeError` paths for a model entry without "id" or "capabilities", and for "models" present but `None`. The data model cannot represent these inputs. In Python, entries after the first match need no "id"; here every entry has one.
- Capability values count only by their truthiness (`map<string, bool>`). Python accepts any value there.
- JsonText.Escaped: escapes only `"` and `\`. `json.dumps` also escapes control and non-ASCII characters, which no string in the two tables contains.
- JsonText.ReadItemsJoined: the `JsonText` readers are proved to invert the writers on the writers' output only; they are not `json.loads`. They accept no whitespace other than the default separators, and only the escapes `\"` and `\\`. They refuse numbers with a leading zero. Unlike `json.loads`, they accept a raw control character inside a string. The exact literal texts of the two tables are not restated; they are pinned down by reading them back.
- Encryption and persistence of the vault. `Vault` holds only the map that `get_all_secrets` returns and counts `set_secrets` calls.
- Concurrency: every entry point is a single sequential call.
