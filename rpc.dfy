/** The RPC entry points of the OpenAI integration (rpc/main.py): capability lookup
    and dispatch for `predict`, the request-shaped `chat_completion` and `completion`,
    `parse_settings`, and the two-stage model listing of `set_models`.

    Calls into code that is not part of this model (the predictors of the utils
    package, the settings validator, the two generations of the openai listing call)
    are function-valued parameters returning an `Outcome`; the `try`/`except` blocks
    become matches on that outcome. A function that a branch does not call cannot
    influence the result, which is how "is never called" is stated below. */
module Rpc {
  import opened Outcomes
  import opened Envelopes

  // ---------------------------------------------------------------------------
  // Settings and capability lookup (rpc/main.py:18-19)
  // ---------------------------------------------------------------------------

  /** The capability flags of one model entry, each by its Python truthiness.
      A flag that is missing reads as `None` through `.get`, hence as false. */
  type Capabilities = map<string, bool>

  /** One entry of `settings['models']`. */
  datatype ModelEntry = ModelEntry(id: string, capabilities: Capabilities)

  /** The integration settings as `predict` reads them. `modelName` is `None` when the
      key "model_name" is missing and `models` is `None` when "models" is missing;
      every other setting travels in `other`, untouched, to the predictors. */
  datatype Settings = Settings(
    modelName: Option<string>,
    models: Option<seq<ModelEntry>>,
    other: map<string, string>)

  const ChatFlag: string := "chat_completion"
  const TextFlag: string := "completion"

  /** `settings.get('models', [])`. */
  function ModelsOf(settings: Settings): seq<ModelEntry>
  {
    match settings.models
    case None => []
    case Some(ms) => ms
  }

  /** `capabilities.get(flag)` is truthy. */
  predicate Truthy(caps: Capabilities, flag: string)
  {
    flag in caps && caps[flag]
  }

  /** The lookup's generator reads `settings['model_name']` outside the `try`, once for
      each entry up to and including the first match: it raises `KeyError` out of
      `predict` unless the name is present or there are no entries to compare it with. */
  predicate CanLookUp(settings: Settings)
  {
    settings.modelName.Some? || ModelsOf(settings) == []
  }

  /** Entry `i` of the models list carries the requested model name. */
  predicate Matches(settings: Settings, i: int)
  {
    && settings.modelName.Some?
    && 0 <= i < |ModelsOf(settings)|
    && ModelsOf(settings)[i].id == settings.modelName.value
  }

  /** Entry `i` is the first entry that carries the requested model name. */
  predicate FirstMatchAt(settings: Settings, i: int)
  {
    Matches(settings, i) && forall j :: 0 <= j < i ==> !Matches(settings, j)
  }

  /** The index of the first entry of `models` whose id is `name`, if there is one. */
  function FirstMatch(models: seq<ModelEntry>, name: string): (r: Option<nat>)
    ensures r.Some? ==> r.value < |models| && models[r.value].id == name
    ensures r.Some? ==> forall j :: 0 <= j < r.value ==> models[j].id != name
    ensures r.None? ==> forall j :: 0 <= j < |models| ==> models[j].id != name
  {
    if models == [] then None
    else if models[0].id == name then Some(0)
    else
      match FirstMatch(models[1..], name)
      case None => None
      case Some(i) => Some(i + 1)
  }

  /** `next((m['capabilities'] for m in models if m['id'] == settings['model_name']), {})`:
      the capabilities of the first matching entry, or the empty map when none matches
      (including when "models" is missing). */
  function LookupCapabilities(settings: Settings): (caps: Capabilities)
    requires CanLookUp(settings)
    ensures forall i :: FirstMatchAt(settings, i) ==> caps == ModelsOf(settings)[i].capabilities
    ensures (forall i :: !Matches(settings, i)) ==> caps == map[]
  {
    match settings.modelName
    case None => map[]
    case Some(name) =>
      match FirstMatch(ModelsOf(settings), name)
      case None => map[]
      case Some(i) =>
        assert FirstMatchAt(settings, i) by {
          forall j | 0 <= j < i ensures !Matches(settings, j) { }
        }
        assert forall k :: FirstMatchAt(settings, k) ==> k == i;
        ModelsOf(settings)[i].capabilities
  }

  /** When the ids in the models list are distinct, a model listed there gets exactly
      the capabilities of its own entry. */
  lemma LookupFindsListedModel(settings: Settings, i: nat)
    requires CanLookUp(settings)
    requires forall a, b :: 0 <= a < b < |ModelsOf(settings)| ==> ModelsOf(settings)[a].id != ModelsOf(settings)[b].id
    requires Matches(settings, i)
    ensures LookupCapabilities(settings) == ModelsOf(settings)[i].capabilities
  {
    forall j | 0 <= j < i ensures !Matches(settings, j) {
      assert ModelsOf(settings)[j].id != ModelsOf(settings)[i].id;
    }
    assert FirstMatchAt(settings, i);
  }

  // ---------------------------------------------------------------------------
  // Dispatch precedence (rpc/main.py:22-29)
  // ---------------------------------------------------------------------------

  /** The branch of `predict`'s `try` block that runs. */
  datatype Path = ChatPath | TextPath | Rejected

  /** The `if`/`elif`/`else` of `predict`. */
  function SelectPath(caps: Capabilities): Path
  {
    if Truthy(caps, ChatFlag) then ChatPath
    else if Truthy(caps, TextFlag) then TextPath
    else Rejected
  }

  /** The same precedence written as data: flags in order of preference, each with the
      path it selects. */
  const Preferences: seq<(string, Path)> := [(ChatFlag, ChatPath), (TextFlag, TextPath)]

  /** The path of the first preference whose flag is truthy, or `Rejected`. */
  function FirstPreferred(prefs: seq<(string, Path)>, caps: Capabilities): Path
  {
    if prefs == [] then Rejected
    else if Truthy(caps, prefs[0].0) then prefs[0].1
    else FirstPreferred(prefs[1..], caps)
  }

  /** Chat is taken whenever its flag is truthy, even when completion is also truthy;
      text only when chat is falsy and completion truthy; otherwise the request is
      rejected. And this is the ordered preference list `[chat_completion, completion]`. */
  lemma SelectPathPrecedence(caps: Capabilities)
    ensures SelectPath(caps) == ChatPath <==> Truthy(caps, ChatFlag)
    ensures SelectPath(caps) == TextPath <==> !Truthy(caps, ChatFlag) && Truthy(caps, TextFlag)
    ensures SelectPath(caps) == Rejected <==> !Truthy(caps, ChatFlag) && !Truthy(caps, TextFlag)
    ensures SelectPath(caps) == FirstPreferred(Preferences, caps)
  {
    var rest := Preferences[1..];
    assert rest == [(TextFlag, TextPath)];
    assert FirstPreferred(rest[1..], caps) == Rejected;
  }

  // ---------------------------------------------------------------------------
  // predict (rpc/main.py:16-34)
  // ---------------------------------------------------------------------------

  /** The exception the `else` branch raises. Formatting its message reads
      `settings['model_name']`, inside the `try`; when the key is missing that read
      raises `KeyError('model_name')` first, whose `str` is the quoted key. */
  function UnsupportedModel(settings: Settings): (e: PyException)
    ensures settings.modelName.Some? ==> e.typeName == "Exception"
    ensures settings.modelName.None? ==> e == PyException("KeyError", "'model_name'")
  {
    match settings.modelName
    case Some(name) => PyException("Exception", "Model " + name + " does not support chat or text completion")
    case None => PyException("KeyError", "'model_name'")
  }

  /** What the `try` block of `predict` does: call the predictor of the selected path,
      or raise for a model that supports neither mode. */
  function Attempt<P, R>(
    projectId: string, settings: Settings, prompt: P,
    predictChat: (string, Settings, P) -> Outcome<R>,
    predictText: (string, Settings, P) -> Outcome<R>): Outcome<R>
    requires CanLookUp(settings)
  {
    match SelectPath(LookupCapabilities(settings))
    case ChatPath => predictChat(projectId, settings, prompt)
    case TextPath => predictText(projectId, settings, prompt)
    case Rejected => Raised(UnsupportedModel(settings))
  }

  /** `predict`'s handling of the `try` block's outcome: the result unmodified under
      "response", or the exception's class and message under "error". */
  function Normalise<R>(o: Outcome<R>): (env: Envelope<R, string>)
    ensures WellFormed(env, ResponseKey)
    ensures IsOk(env) <==> o.Returned?
    ensures o.Returned? ==> env[ResponseKey.Name()] == Payload(o.value)
    ensures o.Raised? ==> env[ErrorKey] == Problem(Describe(o.exc))
  {
    match o
    case Returned(result) => Success(ResponseKey, result)
    case Raised(e) => Failure(Describe(e))
  }

  /** `RPC.predict`. The envelope is well formed, and which predictor decides it follows
      the capability flags of the first matching model entry: chat when its flag is
      truthy, else text when its flag is truthy, else an error naming the model. */
  function Predict<P, R>(
    projectId: string, settings: Settings, prompt: P,
    predictChat: (string, Settings, P) -> Outcome<R>,
    predictText: (string, Settings, P) -> Outcome<R>): (env: Envelope<R, string>)
    requires CanLookUp(settings)
    ensures WellFormed(env, ResponseKey)
    ensures var caps := LookupCapabilities(settings);
      Truthy(caps, ChatFlag) ==> env == Normalise(predictChat(projectId, settings, prompt))
    ensures var caps := LookupCapabilities(settings);
      !Truthy(caps, ChatFlag) && Truthy(caps, TextFlag) ==>
        env == Normalise(predictText(projectId, settings, prompt))
    ensures var caps := LookupCapabilities(settings);
      !Truthy(caps, ChatFlag) && !Truthy(caps, TextFlag) ==>
        !IsOk(env) && env[ErrorKey] == Problem(Describe(UnsupportedModel(settings)))
  {
    SelectPathPrecedence(LookupCapabilities(settings));
    Normalise(Attempt(projectId, settings, prompt, predictChat, predictText))
  }

  /** A model that supports neither mode is rejected with
      "<class 'Exception'>: Model NAME does not support chat or text completion", whatever
      the predictors would have done: neither is called. */
  lemma PredictRejectsUnsupported<P, R>(
    projectId: string, settings: Settings, prompt: P,
    predictChat: (string, Settings, P) -> Outcome<R>,
    predictText: (string, Settings, P) -> Outcome<R>,
    otherChat: (string, Settings, P) -> Outcome<R>,
    otherText: (string, Settings, P) -> Outcome<R>,
    name: string)
    requires settings.modelName == Some(name)
    requires !Truthy(LookupCapabilities(settings), ChatFlag)
    requires !Truthy(LookupCapabilities(settings), TextFlag)
    ensures var env := Predict(projectId, settings, prompt, predictChat, predictText);
      && !IsOk(env)
      && env[ErrorKey] == Problem("<class 'Exception'>: Model " + name + " does not support chat or text completion")
      && env == Predict(projectId, settings, prompt, otherChat, otherText)
  {
    UnsupportedModelText(settings, name);
  }

  /** A model whose name matches no entry, or an absent models list, is rejected with
      the unsupported-model message, whatever the predictors. */
  lemma PredictUnknownModel<P, R>(
    projectId: string, settings: Settings, prompt: P, name: string,
    predictChat: (string, Settings, P) -> Outcome<R>,
    predictText: (string, Settings, P) -> Outcome<R>)
    requires settings.modelName == Some(name)
    requires forall i :: 0 <= i < |ModelsOf(settings)| ==> ModelsOf(settings)[i].id != name
    ensures Predict(projectId, settings, prompt, predictChat, predictText)
      == Failure("<class 'Exception'>: Model " + name + " does not support chat or text completion")
  {
    assert forall i :: !Matches(settings, i);
    UnsupportedModelText(settings, name);
  }

  /** The rendering of the rejection for a named model. */
  lemma UnsupportedModelText(settings: Settings, name: string)
    requires settings.modelName == Some(name)
    ensures Describe(UnsupportedModel(settings)) ==
      "<class 'Exception'>: Model " + name + " does not support chat or text completion"
  {
    var tail := " does not support chat or text completion";
    assert TypeRepr(PyException("Exception", "")) + ": " == "<class 'Exception'>: ";
    assert "<class 'Exception'>: " + ("Model " + name + tail) == "<class 'Exception'>: Model " + name + tail;
  }

  /** On the chat path the text predictor is never called, and on the text path the
      chat predictor is never called: replacing the unused one changes nothing. */
  lemma PredictCallsOnlySelected<P, R>(
    projectId: string, settings: Settings, prompt: P,
    predictChat: (string, Settings, P) -> Outcome<R>,
    predictText: (string, Settings, P) -> Outcome<R>,
    otherChat: (string, Settings, P) -> Outcome<R>,
    otherText: (string, Settings, P) -> Outcome<R>)
    requires CanLookUp(settings)
    ensures Truthy(LookupCapabilities(settings), ChatFlag) ==>
      Predict(projectId, settings, prompt, predictChat, predictText)
        == Predict(projectId, settings, prompt, predictChat, otherText)
    ensures !Truthy(LookupCapabilities(settings), ChatFlag) ==>
      Predict(projectId, settings, prompt, predictChat, predictText)
        == Predict(projectId, settings, prompt, otherChat, predictText)
  {
  }

  // ---------------------------------------------------------------------------
  // chat_completion and completion (rpc/main.py:38-58)
  // ---------------------------------------------------------------------------

  /** The `try`/`except` of the request-shaped entry points: unlike `predict`, the
      error is `str(e)` alone, without the class. */
  function Guarded<R>(o: Outcome<R>): Envelope<R, string>
  {
    match o
    case Returned(result) => Success(ResponseKey, result)
    case Raised(e) => Failure(e.message)
  }

  /** `RPC.chat_completion`: the outcome of `predict_chat_from_request` in an envelope. */
  function ChatCompletion<Q, R>(
    projectId: string, settings: Settings, request: Q,
    predictChatFromRequest: (string, Settings, Q) -> Outcome<R>): (env: Envelope<R, string>)
    ensures WellFormed(env, ResponseKey)
    ensures var o := predictChatFromRequest(projectId, settings, request);
      && (IsOk(env) <==> o.Returned?)
      && (o.Returned? ==> env[ResponseKey.Name()] == Payload(o.value))
      && (o.Raised? ==> env[ErrorKey] == Problem(o.exc.message))
  {
    Guarded(predictChatFromRequest(projectId, settings, request))
  }

  /** `RPC.completion`: the outcome of `predict_from_request` in an envelope. */
  function Completion<Q, R>(
    projectId: string, settings: Settings, request: Q,
    predictFromRequest: (string, Settings, Q) -> Outcome<R>): (env: Envelope<R, string>)
    ensures WellFormed(env, ResponseKey)
    ensures var o := predictFromRequest(projectId, settings, request);
      && (IsOk(env) <==> o.Returned?)
      && (o.Returned? ==> env[ResponseKey.Name()] == Payload(o.value))
      && (o.Raised? ==> env[ErrorKey] == Problem(o.exc.message))
  {
    Guarded(predictFromRequest(projectId, settings, request))
  }

  /** For the same failing call, `predict` reports "<class 'T'>: " followed by exactly
      the error that `chat_completion` reports. */
  lemma PredictPrefixesClass<P, R>(
    projectId: string, settings: Settings, prompt: P,
    predictChat: (string, Settings, P) -> Outcome<R>,
    predictText: (string, Settings, P) -> Outcome<R>,
    e: PyException)
    requires CanLookUp(settings)
    requires Truthy(LookupCapabilities(settings), ChatFlag)
    requires predictChat(projectId, settings, prompt) == Raised(e)
    ensures Predict(projectId, settings, prompt, predictChat, predictText)[ErrorKey]
      == Problem(TypeRepr(e) + ": " + ChatCompletion(projectId, settings, prompt, predictChat)[ErrorKey].e)
  {
  }

  // ---------------------------------------------------------------------------
  // parse_settings (rpc/main.py:62-67)
  // ---------------------------------------------------------------------------

  /** What `OpenAISettings.parse_obj` does: return the parsed settings, raise a
      `ValidationError` (carried as its detail object), or raise anything else. */
  datatype Validation<+S, +D> = Parsed(item: S) | Invalid(detail: D) | Crashed(exc: PyException)

  /** `RPC.parse_settings`. Only `ValidationError` is caught: it comes back as the error
      object itself under "error"; the parsed settings come back under "item"; any other
      exception leaves the function (`Raised`). */
  function ParseSettings<W, S, D>(raw: W, parseObj: W -> Validation<S, D>): (r: Outcome<Envelope<S, D>>)
    ensures r.Raised? <==> parseObj(raw).Crashed?
    ensures r.Returned? ==> WellFormed(r.value, ItemKey)
    ensures parseObj(raw).Parsed? ==>
      r.Returned? && IsOk(r.value) && r.value[ItemKey.Name()] == Payload(parseObj(raw).item)
    ensures parseObj(raw).Invalid? ==>
      r.Returned? && !IsOk(r.value) && r.value[ErrorKey] == Problem(parseObj(raw).detail)
    ensures parseObj(raw).Crashed? ==> r == Raised(parseObj(raw).exc)
  {
    match parseObj(raw)
    case Parsed(item) => Returned(Success(ItemKey, item))
    case Invalid(detail) => Returned(Failure(detail))
    case Crashed(e) => Raised(e)
  }

  // ---------------------------------------------------------------------------
  // set_models (rpc/main.py:71-100)
  // ---------------------------------------------------------------------------

  /** The listing-related settings: `api_base`, `api_type`, `api_version`. */
  datatype ListingSettings = ListingSettings(
    apiBase: Option<string>, apiType: Option<string>, apiVersion: Option<string>)

  /** The arguments of the legacy `Model.list(...)` call. */
  datatype LegacyRequest = LegacyRequest(
    apiKey: string, apiBase: Option<string>, apiType: Option<string>, apiVersion: Option<string>)

  /** The arguments the modern client is built with; `api_type` and `api_version` no
      longer exist there. */
  datatype ModernRequest = ModernRequest(apiKey: string, baseUrl: Option<string>)

  /** Which listing call produced the models. */
  datatype Source = Legacy | Modern

  /** The listing `set_models` goes on to normalise, or the empty list. */
  datatype Discovered<+L> = Listed(listing: L, source: Source) | NoModels

  function LegacyRequestFor(settings: ListingSettings, apiKey: string): LegacyRequest
  {
    LegacyRequest(apiKey, settings.apiBase, settings.apiType, settings.apiVersion)
  }

  function ModernRequestFor(settings: ListingSettings, apiKey: string): ModernRequest
  {
    ModernRequest(apiKey, settings.apiBase)
  }

  /** `RPC.set_models` up to normalisation: the legacy listing when it returns, else the
      modern listing when it returns, else the empty list; no exception of either call
      leaves the function. `apiKey` is the already resolved secret. */
  function SetModels<L>(
    settings: ListingSettings, apiKey: string,
    legacyList: LegacyRequest -> Outcome<L>,
    modernList: ModernRequest -> Outcome<L>): (r: Discovered<L>)
    ensures var legacy := legacyList(LegacyRequestFor(settings, apiKey));
      legacy.Returned? ==> r == Listed(legacy.value, Legacy)
    ensures var legacy := legacyList(LegacyRequestFor(settings, apiKey));
      var modern := modernList(ModernRequestFor(settings, apiKey));
      legacy.Raised? && modern.Returned? ==> r == Listed(modern.value, Modern)
    ensures var legacy := legacyList(LegacyRequestFor(settings, apiKey));
      var modern := modernList(ModernRequestFor(settings, apiKey));
      r == NoModels <==> legacy.Raised? && modern.Raised?
  {
    match legacyList(LegacyRequestFor(settings, apiKey))
    case Returned(models) => Listed(models, Legacy)
    case Raised(_) =>
      match modernList(ModernRequestFor(settings, apiKey))
      case Returned(models) => Listed(models, Modern)
      case Raised(_) => NoModels
  }

  /** The modern listing is consulted only when the legacy one raised: when the legacy
      call returns, any other modern call gives the same result. When the legacy call
      raises, `api_type` and `api_version` no longer matter. */
  lemma SetModelsFallbackOnly<L>(
    settings: ListingSettings, apiKey: string,
    legacyList: LegacyRequest -> Outcome<L>,
    modernList: ModernRequest -> Outcome<L>,
    otherModern: ModernRequest -> Outcome<L>,
    otherType: Option<string>, otherVersion: Option<string>)
    ensures legacyList(LegacyRequestFor(settings, apiKey)).Returned? ==>
      SetModels(settings, apiKey, legacyList, modernList)
        == SetModels(settings, apiKey, legacyList, otherModern)
    ensures var other := settings.(apiType := otherType, apiVersion := otherVersion);
      legacyList(LegacyRequestFor(settings, apiKey)).Raised? &&
      legacyList(LegacyRequestFor(other, apiKey)).Raised? ==>
        SetModels(settings, apiKey, legacyList, modernList)
          == SetModels(other, apiKey, legacyList, modernList)
  {
  }

  // ---------------------------------------------------------------------------
  // End-to-end scenarios
  // ---------------------------------------------------------------------------

  /** A chat model listed in the settings: the chat predictor's payload comes back. */
  lemma ChatScenario<P, R>(
    projectId: string, prompt: P, payload: R,
    predictChat: (string, Settings, P) -> Outcome<R>,
    predictText: (string, Settings, P) -> Outcome<R>)
    requires predictChat(projectId, Gpt4Settings(), prompt) == Returned(payload)
    ensures Predict(projectId, Gpt4Settings(), prompt, predictChat, predictText)
      == Success(ResponseKey, payload)
  {
    assert FirstMatchAt(Gpt4Settings(), 0);
  }

  function Gpt4Settings(): Settings
  {
    Settings(Some("gpt-4"), Some([ModelEntry("gpt-4", map[ChatFlag := true])]), map[])
  }

  /** A model listed with only the embeddings flag (such as "text-embedding-ada-002")
      is rejected as unsupported. */
  lemma EmbeddingScenario<P, R>(
    projectId: string, prompt: P, name: string,
    predictChat: (string, Settings, P) -> Outcome<R>,
    predictText: (string, Settings, P) -> Outcome<R>)
    ensures var s := Settings(Some(name), Some([ModelEntry(name, map["embeddings" := true])]), map[]);
      Predict(projectId, s, prompt, predictChat, predictText)
        == Failure("<class 'Exception'>: Model " + name + " does not support chat or text completion")
  {
    var s := Settings(Some(name), Some([ModelEntry(name, map["embeddings" := true])]), map[]);
    assert FirstMatchAt(s, 0);
    UnsupportedModelText(s, name);
  }

  /** A predictor that raises a transport error yields its class and message. */
  lemma TransportErrorScenario<P, R>(
    projectId: string, prompt: P, e: PyException,
    predictChat: (string, Settings, P) -> Outcome<R>,
    predictText: (string, Settings, P) -> Outcome<R>)
    requires predictChat(projectId, Gpt4Settings(), prompt) == Raised(e)
    ensures Predict(projectId, Gpt4Settings(), prompt, predictChat, predictText)
      == Failure("<class '" + e.typeName + "'>: " + e.message)
  {
    assert FirstMatchAt(Gpt4Settings(), 0);
    DescribeText(e);
  }

  /** With no "model_name" and no models, the `KeyError` raised inside the `try` is
      caught like any other exception. */
  lemma MissingModelNameScenario<P, R>(
    projectId: string, prompt: P,
    predictChat: (string, Settings, P) -> Outcome<R>,
    predictText: (string, Settings, P) -> Outcome<R>)
    ensures Predict(projectId, Settings(None, None, map[]), prompt, predictChat, predictText)
      == Failure("<class 'KeyError'>: 'model_name'")
  {
    DescribeText(PyException("KeyError", "'model_name'"));
    assert "<class '" + "KeyError" + "'>: " + "'model_name'" == "<class 'KeyError'>: 'model_name'";
  }
}
