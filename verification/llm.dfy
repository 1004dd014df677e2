/** The LLM catalogue of `src/lib/api/llm.service.ts`: the fixed provider
    list, the lookup by value, and what `fetchModelsForProvider` makes of the
    cost table it downloads (which request, which models it keeps, in which
    order, and which error it reports).

    The download is an input (`HttpOutcome`). `localeCompare` is modelled as
    the ordinal lexicographic order on characters, and `toUpperCase` /
    `toLowerCase` as their ASCII versions. */
module Llm {
  import opened Options
  import opened Text
  import AgentSchema

  datatype Provider = Provider(name: string, value: string, displayName: string)

  /** `PROVIDERS`. */
  const Providers: seq<Provider> := [
    Provider("OpenAI", "OpenAI", "OpenAI"),
    Provider("Anthropic", "Anthropic", "Anthropic"),
    Provider("Llama", "Llama", "Llama"),
    Provider("Google", "Google", "Google (Gemini)"),
    Provider("Custom", "Custom", "Custom")]

  /** One row of the cost table. */
  datatype ModelCost = ModelCost(
    provider: string,
    model: string,
    operator: string,
    inputCostPer1M: real,
    outputCostPer1M: real,
    promptCacheReadPer1M: Option<real>,
    showInPlayground: Option<bool>)

  // ---------------------------------------------------------------------------
  // Provider lookup

  /** The values of the providers, in list order. */
  function ProviderValues(ps: seq<Provider>): (r: seq<string>)
    ensures |r| == |ps|
    ensures forall i :: 0 <= i < |ps| ==> r[i] == ps[i].value
  {
    seq(|ps|, i requires 0 <= i < |ps| => ps[i].value)
  }

  /** The position of the first provider from `from` on with the given
      value, if there is one. */
  function FirstWithValue(ps: seq<Provider>, value: string, from: nat): (r: Option<nat>)
    requires from <= |ps|
    ensures r.None? <==> forall j :: from <= j < |ps| ==> ps[j].value != value
    ensures r.Some? ==> from <= r.value < |ps| && ps[r.value].value == value
    ensures r.Some? ==> forall j :: from <= j < r.value ==> ps[j].value != value
    decreases |ps| - from
  {
    if from == |ps| then None
    else if ps[from].value == value then Some(from)
    else FirstWithValue(ps, value, from + 1)
  }

  /** `PROVIDERS.find(p => p.value === value)` over any list: the first
      provider with that value, if there is one. */
  function FindByValue(ps: seq<Provider>, value: string): (r: Option<Provider>)
    ensures r.None? <==> forall i :: 0 <= i < |ps| ==> ps[i].value != value
    ensures r.Some? ==> r.value.value == value
    ensures r.Some? ==> exists i :: 0 <= i < |ps| && ps[i] == r.value && forall j :: 0 <= j < i ==> ps[j].value != value
  {
    match FirstWithValue(ps, value, 0)
    case None => None
    case Some(i) => Some(ps[i])
  }

  /** `getProviderByValue`. */
  function GetProviderByValue(value: string): (r: Option<Provider>)
    ensures r.Some? <==> value in ProviderValues(Providers)
    ensures r.Some? ==> r.value in Providers && r.value.value == value
  {
    var values := ProviderValues(Providers);
    assert value in values <==> exists i :: 0 <= i < |Providers| && Providers[i].value == value by {
      assert forall i :: 0 <= i < |Providers| ==> values[i] == Providers[i].value;
    }
    FindByValue(Providers, value)
  }

  /** `isValidProvider`: some provider has the value. */
  predicate IsValidProvider(value: string) {
    exists i :: 0 <= i < |Providers| && Providers[i].value == value
  }

  /** A value is valid exactly when the lookup finds a provider, and the
      provider found carries that very value. */
  lemma ValidIffFound(value: string)
    ensures IsValidProvider(value) <==> GetProviderByValue(value).Some?
    ensures GetProviderByValue(value).Some? ==> GetProviderByValue(value).value.value == value
  {
    if IsValidProvider(value) {
      var i :| 0 <= i < |Providers| && Providers[i].value == value;
      assert ProviderValues(Providers)[i] == value;
    }
    if GetProviderByValue(value).Some? {
      var i :| 0 <= i < |Providers| && ProviderValues(Providers)[i] == value;
      assert Providers[i].value == value;
    }
  }

  /** The provider values are, in order, the five names the agent form
      accepts. */
  lemma ProviderValuesAreFormProviders()
    ensures ProviderValues(Providers) == AgentSchema.ProviderNames
  {
  }

  // ---------------------------------------------------------------------------
  // Filtering

  /** A model is kept when it is shown in the playground or its provider
      equals the requested one ignoring case. */
  predicate Keep(m: ModelCost, provider: string) {
    m.showInPlayground == Some(true) || ToUpper(m.provider) == ToUpper(provider)
  }

  /** `data.filter(...)`: each kept model as often as it occurs, in order. */
  function FilterModels(xs: seq<ModelCost>, provider: string): (r: seq<ModelCost>)
    ensures |r| <= |xs|
    ensures forall m :: multiset(r)[m] == if Keep(m, provider) then multiset(xs)[m] else 0
    decreases |xs|
  {
    if |xs| == 0 then []
    else
      var rest := FilterModels(xs[1..], provider);
      assert xs == [xs[0]] + xs[1..];
      if Keep(xs[0], provider) then [xs[0]] + rest else rest
  }

  /** Filtering keeps the order of the models it keeps: it is the list with
      the others taken out, so filtering a list that passes whole is the
      identity. */
  lemma {:induction false} FilterKeepsAll(xs: seq<ModelCost>, provider: string)
    requires forall i :: 0 <= i < |xs| ==> Keep(xs[i], provider)
    ensures FilterModels(xs, provider) == xs
    decreases |xs|
  {
    if |xs| > 0 {
      FilterKeepsAll(xs[1..], provider);
    }
  }

  // ---------------------------------------------------------------------------
  // Sorting by model name

  /** Ordinal lexicographic order on strings: `a` comes no later than `b`. */
  predicate LexLe(a: string, b: string)
    decreases |a|
  {
    |a| == 0 || (|b| > 0 && (a[0] < b[0] || (a[0] == b[0] && LexLe(a[1..], b[1..]))))
  }

  /** Any two strings are comparable. */
  lemma {:induction false} LexLeTotal(a: string, b: string)
    ensures LexLe(a, b) || LexLe(b, a)
    decreases |a|
  {
    if |a| > 0 && |b| > 0 && a[0] == b[0] {
      LexLeTotal(a[1..], b[1..]);
    }
  }

  /** Sorted ascending by model name. */
  predicate SortedByModel(s: seq<ModelCost>) {
    forall i :: 0 < i < |s| ==> LexLe(s[i - 1].model, s[i].model)
  }

  /** Inserts `x` before the first model it does not come after. */
  function Insert(x: ModelCost, ys: seq<ModelCost>): (r: seq<ModelCost>)
    requires SortedByModel(ys)
    ensures SortedByModel(r)
    ensures multiset(r) == multiset(ys) + multiset{x}
    ensures |r| == |ys| + 1
    ensures |ys| > 0 ==> r[0] == x || r[0] == ys[0]
    decreases |ys|
  {
    if |ys| == 0 then [x]
    else if LexLe(x.model, ys[0].model) then [x] + ys
    else
      var rest := Insert(x, ys[1..]);
      LexLeTotal(x.model, ys[0].model);
      assert ys == [ys[0]] + ys[1..];
      assert LexLe(ys[0].model, rest[0].model) by {
        if |ys| > 1 {
          assert ys[1..][0] == ys[1];
        }
      }
      assert SortedByModel([ys[0]] + rest) by {
        forall i | 1 < i < |rest| + 1
          ensures LexLe(([ys[0]] + rest)[i - 1].model, ([ys[0]] + rest)[i].model)
        {
          assert ([ys[0]] + rest)[i] == rest[i - 1];
        }
      }
      [ys[0]] + rest
  }

  /** `.sort((a, b) => a.model.localeCompare(b.model))`: the same models,
      ascending by name. */
  function SortByModel(xs: seq<ModelCost>): (r: seq<ModelCost>)
    ensures SortedByModel(r)
    ensures multiset(r) == multiset(xs)
    decreases |xs|
  {
    if |xs| == 0 then []
    else
      assert xs == [xs[0]] + xs[1..];
      Insert(xs[0], SortByModel(xs[1..]))
  }

  // ---------------------------------------------------------------------------
  // fetchModelsForProvider

  const BaseUrl := "https://www.helicone.ai/api"
  const CostsPath := "/llm-costs?provider="
  const FailurePrefix := "Failed to fetch models for "

  /** What the download gave: the request failed outright, or a response came
      back with its `ok` flag and the table it carried, if its body could be
      read as one. */
  datatype HttpOutcome = RequestFailed | Response(ok: bool, table: Option<seq<ModelCost>>)

  /** One call of the service: the URL it requested, if any, and what it
      returned or threw. */
  datatype ServiceCall = ServiceCall(requestUrl: Option<string>, result: Result<seq<ModelCost>, string>)

  /** `fetchModelsForProvider`, given what the download would give. */
  function FetchModelsForProvider(provider: string, http: HttpOutcome): (c: ServiceCall)
    // no request for an empty provider or "Custom": just the empty list
    ensures c.requestUrl.None? <==> provider == "" || provider == "Custom"
    ensures c.requestUrl.None? ==> c.result == Ok([])
    // otherwise the provider's lower-cased name goes into the query
    ensures c.requestUrl.Some? ==> c.requestUrl.value == BaseUrl + CostsPath + ToLower(provider)
    // success exactly when a readable table came back with an ok status
    ensures c.requestUrl.Some? ==>
              (c.result.Ok? <==> http.Response? && http.ok && http.table.Some?)
    // the kept models, each as often as in the table, sorted by name
    ensures c.requestUrl.Some? && c.result.Ok? ==>
              && SortedByModel(c.result.value)
              && forall m :: multiset(c.result.value)[m] ==
                   if Keep(m, provider) then multiset(http.table.value)[m] else 0
    // every failure is reported with the one message
    ensures c.result.Err? ==> c.result.error == FailurePrefix + provider
  {
    if provider == "" || provider == "Custom" then ServiceCall(None, Ok([]))
    else
      var url := BaseUrl + CostsPath + ToLower(provider);
      match http
      case Response(true, Some(table)) => ServiceCall(Some(url), Ok(SortByModel(FilterModels(table, provider))))
      case _ => ServiceCall(Some(url), Err(FailurePrefix + provider))
  }

  /** When every model of the table is shown in the playground, a successful
      fetch returns all of them, whatever provider was asked for. */
  lemma FetchKeepsWholeTable(provider: string, table: seq<ModelCost>)
    requires provider != "" && provider != "Custom"
    requires forall i :: 0 <= i < |table| ==> table[i].showInPlayground == Some(true)
    ensures var c := FetchModelsForProvider(provider, Response(true, Some(table)));
            c.result.Ok? && multiset(c.result.value) == multiset(table)
  {
    FilterKeepsAll(table, provider);
  }
}
