/** The provider/model picker of `src/hooks/useLLM.ts` as a state machine.
    Each operation is taken as one completed step: a fetch is modelled from
    its start to the moment its result is stored, with the download's outcome
    as an input. The one overlap modelled is the pair of fetches a provider
    change starts (see `SetProvider`). */
module UseLlm {
  import opened Options
  import opened Llm

  /** The hook's options: auto-fetch on provider change (default on) and the
      initial provider (default empty). */
  datatype PickerOptions = PickerOptions(autoFetch: bool, initialProvider: string)

  /** The hook's state. `provider` is `null` when absent; it may also hold
      the empty string, which `setProvider("")` stores as given. */
  datatype Picker = Picker(
    provider: Option<string>,
    models: seq<ModelCost>,
    selectedModel: Option<ModelCost>,
    isLoading: bool,
    error: Option<string>)

  /** The picker's invariant: a selected model is one of the listed models. */
  predicate Valid(p: Picker) {
    p.selectedModel.Some? ==> p.selectedModel.value in p.models
  }

  /** The state before any effect runs. */
  function Init(opts: PickerOptions): (p: Picker)
    ensures p.provider.Some? <==> opts.initialProvider != ""
    ensures p.provider.Some? ==> p.provider.value == opts.initialProvider
    ensures p.models == [] && p.selectedModel.None? && !p.isLoading && p.error.None?
    ensures Valid(p)
  {
    Picker(if opts.initialProvider != "" then Some(opts.initialProvider) else None, [], None, false, None)
  }

  /** `provider || selectedProvider`: the argument when it is a non-empty
      string, otherwise the stored provider. */
  function TargetProvider(p: Picker, arg: Option<string>): Option<string> {
    if arg.Some? && arg.value != "" then arg else p.provider
  }

  /** Whether a fetch for the target asks the service at all. */
  predicate Fetches(target: Option<string>) {
    target.Some? && target.value != "" && target.value != "Custom"
  }

  /** `fetchModels(arg)` run to completion, `http` being what the download
      gives. */
  function FetchModels(p: Picker, arg: Option<string>, http: HttpOutcome): (p': Picker)
    // without a target (or for "Custom") the list is emptied and nothing else moves
    ensures !Fetches(TargetProvider(p, arg)) ==>
              p' == p.(models := [], selectedModel := None)
    // otherwise loading is over, the selection cleared, and the list is the
    // service's answer, or empty with the service's message as the error
    ensures Fetches(TargetProvider(p, arg)) ==>
              var c := FetchModelsForProvider(TargetProvider(p, arg).value, http);
              && !p'.isLoading && p'.selectedModel.None? && p'.provider == p.provider
              && (c.result.Ok? ==> p'.models == c.result.value && p'.error.None?)
              && (c.result.Err? ==> p'.models == [] && p'.error == Some(c.result.error))
    ensures Valid(p')
  {
    var target := TargetProvider(p, arg);
    if !Fetches(target) then p.(models := [], selectedModel := None)
    else
      match FetchModelsForProvider(target.value, http).result
      case Ok(ms) => p.(models := ms, selectedModel := None, isLoading := false, error := None)
      case Err(e) => p.(models := [], selectedModel := None, isLoading := false, error := Some(e))
  }

  /** The list a completed service call leaves: its models, or none when it
      failed. */
  function ModelsOf(c: ServiceCall): seq<ModelCost> {
    match c.result
    case Ok(ms) => ms
    case Err(_) => []
  }

  /** Whether the mount effect fetches: auto-fetch on and a real initial
      provider. */
  predicate EffectFetches(opts: PickerOptions) {
    opts.autoFetch && Fetches(Some(opts.initialProvider))
  }

  /** The mount effect lists `fetchModels` among its dependencies, and
      `fetchModels` is rebuilt whenever the stored provider changes. So a step
      that changes the provider runs the effect again, and it fetches the
      initial provider's models; `http` is what that download gives. */
  function EffectRerun(before: Picker, after: Picker, opts: PickerOptions, http: HttpOutcome): (p': Picker)
    ensures !(after.provider != before.provider && EffectFetches(opts)) ==> p' == after
    ensures after.provider != before.provider && EffectFetches(opts) ==>
              && p'.provider == after.provider && p'.selectedModel.None? && !p'.isLoading
              && p'.models == ModelsOf(FetchModelsForProvider(opts.initialProvider, http))
    ensures Valid(after) ==> Valid(p')
  {
    if after.provider != before.provider && EffectFetches(opts) then
      FetchModels(after, Some(opts.initialProvider), http)
    else after
  }

  /** What `setProvider` evidently intends: the provider is stored and the
      selection cleared, and the list shows the chosen provider's models when
      auto-fetch is on and the provider is a real one, and is empty
      otherwise. */
  function SetProviderIntended(p: Picker, provider: string, opts: PickerOptions, http: HttpOutcome): (p': Picker)
    ensures p'.provider == Some(provider)
    ensures p'.selectedModel.None?
    ensures !(opts.autoFetch && Fetches(Some(provider))) ==>
              p' == p.(provider := Some(provider), selectedModel := None, models := [])
    ensures opts.autoFetch && Fetches(Some(provider)) ==>
              p'.models == ModelsOf(FetchModelsForProvider(provider, http)) && !p'.isLoading
    ensures Valid(p')
  {
    var stored := p.(provider := Some(provider), selectedModel := None);
    if opts.autoFetch && provider != "" && provider != "Custom" then FetchModels(stored, Some(provider), http)
    else stored.(models := [])
  }

  /** The synchronous start of `fetchModels` for a real target: loading on
      and the error cleared, before the download is awaited. */
  function Begin(p: Picker): (p': Picker)
    ensures p'.isLoading && p'.error.None?
    ensures p'.provider == p.provider && p'.models == p.models && p'.selectedModel == p.selectedModel
  {
    p.(isLoading := true, error := None)
  }

  /** A started fetch settling with the service's answer: its list and no
      selection on success, an empty list and its message on failure, and
      loading over either way. Success leaves the error as it finds it. */
  function Settle(p: Picker, c: ServiceCall): (p': Picker)
    ensures p'.models == ModelsOf(c) && p'.selectedModel.None? && !p'.isLoading
    ensures p'.provider == p.provider
    ensures c.result.Ok? ==> p'.error == p.error
    ensures c.result.Err? ==> p'.error == Some(c.result.error)
    ensures Valid(p')
  {
    match c.result
    case Ok(ms) => p.(models := ms, selectedModel := None, isLoading := false)
    case Err(e) => p.(models := [], selectedModel := None, isLoading := false, error := Some(e))
  }

  /** `setProvider(provider)` as the hook runs it. When the provider does not
      change, or the effect does not fetch, it is the intended step. Otherwise
      the handler stores the provider and starts its own fetch (`http`), or
      empties the list when it does not fetch; the re-run effect then starts
      the initial provider's fetch (`effectHttp`) before either has settled,
      and the two settle in the order they started. So the list ends up
      holding the initial provider's models, and a failed own fetch leaves
      its message behind when the effect's fetch succeeds. */
  function SetProvider(p: Picker, provider: string, opts: PickerOptions, http: HttpOutcome, effectHttp: HttpOutcome): (p': Picker)
    ensures p'.provider == Some(provider)
    ensures p'.selectedModel.None?
    ensures p.provider == Some(provider) || !EffectFetches(opts) ==>
              p' == SetProviderIntended(p, provider, opts, http)
    ensures p.provider != Some(provider) && EffectFetches(opts) ==>
              var own := FetchModelsForProvider(provider, http);
              var effect := FetchModelsForProvider(opts.initialProvider, effectHttp);
              var ownFetches := opts.autoFetch && Fetches(Some(provider));
              && p'.models == ModelsOf(effect) && !p'.isLoading
              && (effect.result.Err? ==> p'.error == Some(effect.result.error))
              && (effect.result.Ok? && ownFetches && own.result.Err? ==> p'.error == Some(own.result.error))
              && (effect.result.Ok? && !(ownFetches && own.result.Err?) ==> p'.error.None?)
    ensures Valid(p')
  {
    if p.provider == Some(provider) || !EffectFetches(opts) then SetProviderIntended(p, provider, opts, http)
    else
      var stored := p.(provider := Some(provider), selectedModel := None);
      var ownFetches := opts.autoFetch && provider != "" && provider != "Custom";
      var started := if ownFetches then Begin(stored) else stored.(models := []);
      var both := Begin(started);
      var ownSettled := if ownFetches then Settle(both, FetchModelsForProvider(provider, http)) else both;
      Settle(ownSettled, FetchModelsForProvider(opts.initialProvider, effectHttp))
  }

  /** With "OpenAI" as the initial provider and auto-fetch on, choosing
      "Custom" should leave an empty list, yet the effect re-run lists
      OpenAI's models under the "Custom" provider. */
  lemma CustomListsInitialModels(p: Picker, m: ModelCost)
    requires p.provider != Some("Custom")
    requires m.showInPlayground == Some(true)
    ensures var opts := PickerOptions(true, "OpenAI");
            var p' := SetProvider(p, "Custom", opts, RequestFailed, Response(true, Some([m])));
            && p'.provider == Some("Custom") && m in p'.models
            && SetProviderIntended(p, "Custom", opts, RequestFailed).models == []
  {
    var opts := PickerOptions(true, "OpenAI");
    var c := FetchModelsForProvider("OpenAI", Response(true, Some([m])));
    assert Keep(m, "OpenAI");
    assert multiset(c.result.value)[m] == 1;
  }

  /** The position of the first model from `from` on with the given name. */
  function FirstNamed(ms: seq<ModelCost>, name: string, from: nat): (r: Option<nat>)
    requires from <= |ms|
    ensures r.None? <==> forall j :: from <= j < |ms| ==> ms[j].model != name
    ensures r.Some? ==> from <= r.value < |ms| && ms[r.value].model == name
    ensures r.Some? ==> forall j :: from <= j < r.value ==> ms[j].model != name
    decreases |ms| - from
  {
    if from == |ms| then None
    else if ms[from].model == name then Some(from)
    else FirstNamed(ms, name, from + 1)
  }

  /** `setModel(name)`: selects the first listed model with that name, or
      nothing when none has it; the rest of the state is untouched. */
  function SetModel(p: Picker, name: string): (p': Picker)
    ensures p'.selectedModel.None? <==> forall j :: 0 <= j < |p.models| ==> p.models[j].model != name
    ensures p'.selectedModel.Some? ==>
              exists i :: 0 <= i < |p.models| && p.models[i] == p'.selectedModel.value
                          && p.models[i].model == name
                          && forall j :: 0 <= j < i ==> p.models[j].model != name
    ensures p' == p.(selectedModel := p'.selectedModel)
    ensures Valid(p')
  {
    match FirstNamed(p.models, name, 0)
    case None => p.(selectedModel := None)
    case Some(i) => p.(selectedModel := Some(p.models[i]))
  }

  /** `clearError`: only the error changes. */
  function ClearError(p: Picker): (p': Picker)
    ensures p'.error.None?
    ensures p' == p.(error := None)
  {
    p.(error := None)
  }

  /** `reset`: every field back to its initial value. When that changes the
      provider, the effect runs again, so a reset is then a fresh mount
      (`effectHttp` being the effect's download); otherwise it is the initial
      state. */
  function Reset(p: Picker, opts: PickerOptions, effectHttp: HttpOutcome): (p': Picker)
    ensures p.provider == Init(opts).provider ==> p' == Init(opts)
    ensures p.provider != Init(opts).provider ==> p' == Mount(opts, effectHttp)
    ensures p'.provider == Init(opts).provider && p'.selectedModel.None? && !p'.isLoading
  {
    var cleared := Picker(if opts.initialProvider != "" then Some(opts.initialProvider) else None, [], None, false, None);
    EffectRerun(p, cleared, opts, effectHttp)
  }

  /** The mount effect: with auto-fetch on and a real initial provider, the
      models of that provider are fetched right away. */
  function Mount(opts: PickerOptions, http: HttpOutcome): (p: Picker)
    ensures !(opts.autoFetch && Fetches(Some(opts.initialProvider))) ==> p == Init(opts)
    ensures opts.autoFetch && Fetches(Some(opts.initialProvider)) ==>
              p == FetchModels(Init(opts), Some(opts.initialProvider), http)
    ensures p.provider == Init(opts).provider
  {
    if opts.initialProvider != "" && opts.initialProvider != "Custom" && opts.autoFetch then
      FetchModels(Init(opts), Some(opts.initialProvider), http)
    else Init(opts)
  }

  /** What a user of the hook can do. */
  datatype Action =
    | DoFetch(arg: Option<string>, http: HttpOutcome)
    | DoSetProvider(provider: string, http: HttpOutcome, effectHttp: HttpOutcome)
    | DoSetModel(name: string)
    | DoClearError
    | DoReset(effectHttp: HttpOutcome)

  function Step(p: Picker, opts: PickerOptions, a: Action): Picker {
    match a
    case DoFetch(arg, http) => FetchModels(p, arg, http)
    case DoSetProvider(provider, http, effectHttp) => SetProvider(p, provider, opts, http, effectHttp)
    case DoSetModel(name) => SetModel(p, name)
    case DoClearError => ClearError(p)
    case DoReset(effectHttp) => Reset(p, opts, effectHttp)
  }

  function Run(p: Picker, opts: PickerOptions, actions: seq<Action>): Picker
    decreases |actions|
  {
    if |actions| == 0 then p else Run(Step(p, opts, actions[0]), opts, actions[1..])
  }

  /** Whatever the user does after mounting, the selected model is always one
      of the models listed, and no step leaves the picker loading. */
  lemma {:induction false} RunKeepsInvariant(p: Picker, opts: PickerOptions, actions: seq<Action>)
    requires Valid(p) && !p.isLoading
    ensures Valid(Run(p, opts, actions))
    ensures !Run(p, opts, actions).isLoading
    decreases |actions|
  {
    if |actions| > 0 {
      RunKeepsInvariant(Step(p, opts, actions[0]), opts, actions[1..]);
    }
  }

  /** Mounting yields a valid, idle picker. */
  lemma MountIsValid(opts: PickerOptions, http: HttpOutcome)
    ensures Valid(Mount(opts, http)) && !Mount(opts, http).isLoading
  {
  }

  /** Selecting the same name twice is the same as selecting it once. */
  lemma SetModelIdempotent(p: Picker, name: string)
    ensures SetModel(SetModel(p, name), name) == SetModel(p, name)
  {
  }
}
