/** The two validators of `src/lib/validation/agent-schema.ts`: the agent
    registration form and the uploaded agent-card JSON.

    A validator returns the list of problems it finds (empty means accepted),
    as the schema library reports every failing check rather than the first.
    Lengths are counted in characters; the library counts UTF-16 code units.
    Costs are `real`; the source compares binary floating-point numbers. */
module AgentSchema {
  import opened Options

  /** The `llmProvider` enumeration. */
  const ProviderNames: seq<string> := ["OpenAI", "Anthropic", "Llama", "Google", "Custom"]

  const MinCostPerToken: real := 0.0001
  const MaxCostPerToken: real := 1.0

  datatype AgentForm = AgentForm(
    agentName: string,
    agentDescription: string,
    llmProvider: string,
    llmModel: string,
    inputCostPer1M: Option<real>,
    outputCostPer1M: Option<real>,
    costPerToken: real)

  /** The checks of the form schema, one per issue it can report. */
  datatype FormIssue =
    | NameTooShort | NameTooLong
    | DescriptionTooShort | DescriptionTooLong
    | ProviderInvalid | ModelMissing
    | InputCostNegative | OutputCostNegative
    | CostNotPositive | CostBelowMinimum | CostAboveMaximum

  /** The checks in the order the schema runs them (field order). */
  const FormChecks: seq<FormIssue> := [
    NameTooShort, NameTooLong, DescriptionTooShort, DescriptionTooLong,
    ProviderInvalid, ModelMissing, InputCostNegative, OutputCostNegative,
    CostNotPositive, CostBelowMinimum, CostAboveMaximum]

  /** Every check is run. */
  lemma FormChecksComplete()
    ensures forall x: FormIssue :: x in FormChecks
  {
    forall x: FormIssue
      ensures x in FormChecks
    {
      var k := match x
        case NameTooShort => 0 case NameTooLong => 1
        case DescriptionTooShort => 2 case DescriptionTooLong => 3
        case ProviderInvalid => 4 case ModelMissing => 5
        case InputCostNegative => 6 case OutputCostNegative => 7
        case CostNotPositive => 8 case CostBelowMinimum => 9 case CostAboveMaximum => 10;
      assert FormChecks[k] == x;
    }
  }

  /** An optional cost passes when absent or non-negative. */
  predicate CostOk(c: Option<real>) {
    c.None? || c.value >= 0.0
  }

  /** Whether the form fails the given check. */
  predicate Violates(f: AgentForm, x: FormIssue) {
    match x
    case NameTooShort => |f.agentName| < 3
    case NameTooLong => |f.agentName| > 50
    case DescriptionTooShort => |f.agentDescription| < 10
    case DescriptionTooLong => |f.agentDescription| > 500
    case ProviderInvalid => f.llmProvider !in ProviderNames
    case ModelMissing => |f.llmModel| < 1
    case InputCostNegative => !CostOk(f.inputCostPer1M)
    case OutputCostNegative => !CostOk(f.outputCostPer1M)
    case CostNotPositive => !(f.costPerToken > 0.0)
    case CostBelowMinimum => !(f.costPerToken >= MinCostPerToken)
    case CostAboveMaximum => !(f.costPerToken <= MaxCostPerToken)
  }

  /** Runs the checks in order and keeps those the form fails. */
  function Failed(f: AgentForm, checks: seq<FormIssue>): (issues: seq<FormIssue>)
    ensures |issues| <= |checks|
    ensures forall x :: x in issues <==> x in checks && Violates(f, x)
    decreases |checks|
  {
    if |checks| == 0 then []
    else (if Violates(f, checks[0]) then [checks[0]] else []) + Failed(f, checks[1..])
  }

  /** `agentFormSchema`: each issue is reported exactly when its field breaks
      the bound the schema sets. */
  function ValidateAgentForm(f: AgentForm): (issues: seq<FormIssue>)
    ensures NameTooShort in issues <==> |f.agentName| < 3
    ensures NameTooLong in issues <==> |f.agentName| > 50
    ensures DescriptionTooShort in issues <==> |f.agentDescription| < 10
    ensures DescriptionTooLong in issues <==> |f.agentDescription| > 500
    ensures ProviderInvalid in issues <==> f.llmProvider !in ProviderNames
    ensures ModelMissing in issues <==> f.llmModel == ""
    ensures InputCostNegative in issues <==> !CostOk(f.inputCostPer1M)
    ensures OutputCostNegative in issues <==> !CostOk(f.outputCostPer1M)
    ensures CostNotPositive in issues <==> f.costPerToken <= 0.0
    ensures CostBelowMinimum in issues <==> f.costPerToken < MinCostPerToken
    ensures CostAboveMaximum in issues <==> f.costPerToken > MaxCostPerToken
  {
    FormChecksComplete();
    Failed(f, FormChecks)
  }

  /** The form is accepted exactly when the name has 3..50 characters, the
      description 10..500, the provider is one of the five, a model is given,
      optional costs are non-negative and the per-token cost lies in
      [0.0001, 1] (the positivity check adds nothing to the minimum). */
  lemma AgentFormAcceptedIff(f: AgentForm)
    ensures ValidateAgentForm(f) == [] <==>
              && 3 <= |f.agentName| <= 50
              && 10 <= |f.agentDescription| <= 500
              && f.llmProvider in ProviderNames
              && f.llmModel != ""
              && CostOk(f.inputCostPer1M) && CostOk(f.outputCostPer1M)
              && MinCostPerToken <= f.costPerToken <= MaxCostPerToken
  {
    var issues := ValidateAgentForm(f);
    if issues != [] {
      var first := issues[0];
      assert first in issues;
    }
  }

  // ---------------------------------------------------------------------------
  // Agent card JSON

  /** A field of parsed JSON: missing, present with the expected type, or
      present with another type. */
  datatype Field<+T> = Missing | Value(v: T) | WrongType

  datatype RawEndpoint = RawEndpoint(url: Field<string>, kind: Field<string>)

  datatype RawAuthentication = RawAuthentication(kind: Field<string>)

  /** A parsed card. `features` only has to be an object, so its contents are
      not kept. */
  datatype RawCard = RawCard(
    name: Field<string>,
    description: Field<string>,
    version: Field<string>,
    endpoints: Field<seq<RawEndpoint>>,
    authentication: Field<RawAuthentication>,
    features: Field<()>)

  datatype CardIssue =
    | NameInvalid | DescriptionInvalid | VersionInvalid
    | EndpointsInvalid
    | EndpointInvalid(index: nat)
    | AuthenticationInvalid
    | FeaturesInvalid

  /** An endpoint passes when its url is a string the URL check accepts and
      its type is a string. */
  predicate EndpointOk(e: RawEndpoint, isUrl: string -> bool) {
    e.url.Value? && isUrl(e.url.v) && e.kind.Value?
  }

  /** The issues of the endpoints from position `from` on. */
  function EndpointIssues(eps: seq<RawEndpoint>, from: nat, isUrl: string -> bool): (issues: seq<CardIssue>)
    requires from <= |eps|
    ensures forall x | x in issues :: x.EndpointInvalid? && from <= x.index < |eps|
    ensures forall i :: from <= i < |eps| ==> (EndpointInvalid(i) in issues <==> !EndpointOk(eps[i], isUrl))
    decreases |eps| - from
  {
    if from == |eps| then []
    else (if EndpointOk(eps[from], isUrl) then [] else [EndpointInvalid(from)])
         + EndpointIssues(eps, from + 1, isUrl)
  }

  /** Whether the card fails one of its whole-field checks: the three
      required strings, and the optional endpoints, authentication and
      features having the wrong shape. */
  predicate CardViolates(card: RawCard, x: CardIssue) {
    match x
    case NameInvalid => !card.name.Value?
    case DescriptionInvalid => !card.description.Value?
    case VersionInvalid => !card.version.Value?
    case EndpointsInvalid => card.endpoints.WrongType?
    case EndpointInvalid(_) => false
    case AuthenticationInvalid =>
      card.authentication.WrongType? || (card.authentication.Value? && !card.authentication.v.kind.Value?)
    case FeaturesInvalid => card.features.WrongType?
  }

  /** The whole-field checks, in field order. */
  const CardChecks: seq<CardIssue> :=
    [NameInvalid, DescriptionInvalid, VersionInvalid, EndpointsInvalid, AuthenticationInvalid, FeaturesInvalid]

  /** Every issue but the per-endpoint one has its whole-field check. */
  lemma CardChecksComplete()
    ensures forall x: CardIssue :: x in CardChecks <==> !x.EndpointInvalid?
  {
  }

  /** Runs the whole-field checks in order and keeps those the card fails. */
  function CardFailed(card: RawCard, checks: seq<CardIssue>): (issues: seq<CardIssue>)
    ensures forall x :: x in issues <==> x in checks && CardViolates(card, x)
    decreases |checks|
  {
    if |checks| == 0 then []
    else (if CardViolates(card, checks[0]) then [checks[0]] else []) + CardFailed(card, checks[1..])
  }

  /** The endpoint issues, present only when `endpoints` is an array. */
  function EndpointsIssues(card: RawCard, isUrl: string -> bool): (issues: seq<CardIssue>)
    ensures forall x | x in issues :: x.EndpointInvalid? && card.endpoints.Value? && x.index < |card.endpoints.v|
    ensures card.endpoints.Value? ==>
              forall i :: 0 <= i < |card.endpoints.v| ==>
                (EndpointInvalid(i) in issues <==> !EndpointOk(card.endpoints.v[i], isUrl))
  {
    if card.endpoints.Value? then EndpointIssues(card.endpoints.v, 0, isUrl) else []
  }

  /** `agentCardSchema`, with the URL check of the schema library given as
      `isUrl`. The whole-field issues are listed before the per-endpoint ones;
      the library interleaves them in field order. */
  function ValidateCard(card: RawCard, isUrl: string -> bool): (issues: seq<CardIssue>)
    ensures forall x: CardIssue | !x.EndpointInvalid? :: x in issues <==> CardViolates(card, x)
    ensures card.endpoints.Value? ==>
              forall i :: 0 <= i < |card.endpoints.v| ==>
                (EndpointInvalid(i) in issues <==> !EndpointOk(card.endpoints.v[i], isUrl))
    ensures forall x | x in issues && x.EndpointInvalid? ::
              card.endpoints.Value? && x.index < |card.endpoints.v|
  {
    CardChecksComplete();
    CardFailed(card, CardChecks) + EndpointsIssues(card, isUrl)
  }

  /** A card is accepted exactly when name, description and version are
      strings and each optional part is either absent or well formed, with
      every endpoint URL passing the URL check. */
  lemma CardAcceptedIff(card: RawCard, isUrl: string -> bool)
    ensures ValidateCard(card, isUrl) == [] <==>
              && card.name.Value? && card.description.Value? && card.version.Value?
              && (card.endpoints.Missing? ||
                  (card.endpoints.Value? &&
                   forall i :: 0 <= i < |card.endpoints.v| ==> EndpointOk(card.endpoints.v[i], isUrl)))
              && (card.authentication.Missing? ||
                  (card.authentication.Value? && card.authentication.v.kind.Value?))
              && !card.features.WrongType?
  {
    var issues := ValidateCard(card, isUrl);
    if issues != [] {
      var first := issues[0];
      assert first in issues;
      if first.EndpointInvalid? {
        assert card.endpoints.Value?;
      }
    }
  }
}
