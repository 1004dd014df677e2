/** The agent-card generator dialog of `src/components/agent-card-generator.tsx`:
    its form schema, the card object it builds from an accepted form, and the
    name of the file it hands back. The JSON text itself is not modelled; the
    card is kept as a structured value, and `AsParsed` gives the shape the
    card validator of `AgentSchema` sees once that text is read back. */
module CardGenerator {
  import opened Options
  import opened Text
  import AgentSchema

  /** The dialog's form. Text inputs give strings; the three fields the schema
      marks optional may also be absent. */
  datatype GeneratorForm = GeneratorForm(
    name: string,
    description: string,
    version: string,
    endpoint1Url: string,
    endpoint1Type: string,
    endpoint2Url: Option<string>,
    endpoint2Type: Option<string>,
    authType: string,
    authFlow: Option<string>,
    streamingSupport: bool,
    pushNotifications: bool,
    fileUploadSupport: bool,
    skills: Option<string>,
    defaultInputMethod: string,
    supportedInputMethods: string)

  /** The form's default values; fields without a default start empty. */
  const DefaultForm := GeneratorForm(
    "", "", "1.0.0", "", "", None, None, "oauth2", Some("client_credentials"),
    true, false, false, None, "text", "text,file")

  /** JavaScript truthiness of an optional string: present and non-empty. */
  predicate Present(s: Option<string>) {
    s.Some? && s.value != ""
  }

  /** The checks of `agentCardGeneratorSchema` that can fail. The second
      endpoint's type and the auth flow accept any string, and the booleans
      and skills any value of their type, so they have none. */
  datatype GeneratorIssue =
    | NameTooShort | DescriptionTooShort | VersionMissing
    | Endpoint1UrlInvalid | Endpoint1TypeMissing | Endpoint2UrlInvalid
    | AuthTypeMissing | DefaultInputMissing | SupportedInputsMissing

  const GeneratorChecks: seq<GeneratorIssue> := [
    NameTooShort, DescriptionTooShort, VersionMissing, Endpoint1UrlInvalid, Endpoint1TypeMissing,
    Endpoint2UrlInvalid, AuthTypeMissing, DefaultInputMissing, SupportedInputsMissing]

  /** Whether the form fails the given check; `isUrl` is the schema library's
      URL check. The second URL may be absent, empty or a URL. */
  predicate Violates(f: GeneratorForm, isUrl: string -> bool, x: GeneratorIssue) {
    match x
    case NameTooShort => |f.name| < 3
    case DescriptionTooShort => |f.description| < 10
    case VersionMissing => |f.version| < 1
    case Endpoint1UrlInvalid => !isUrl(f.endpoint1Url)
    case Endpoint1TypeMissing => |f.endpoint1Type| < 1
    case Endpoint2UrlInvalid => Present(f.endpoint2Url) && !isUrl(f.endpoint2Url.value)
    case AuthTypeMissing => |f.authType| < 1
    case DefaultInputMissing => |f.defaultInputMethod| < 1
    case SupportedInputsMissing => |f.supportedInputMethods| < 1
  }

  /** `agentCardGeneratorSchema`: the set of issues reported, each exactly
      when its field breaks the schema's rule. */
  function ValidateGeneratorForm(f: GeneratorForm, isUrl: string -> bool): (issues: set<GeneratorIssue>)
    ensures NameTooShort in issues <==> |f.name| < 3
    ensures DescriptionTooShort in issues <==> |f.description| < 10
    ensures VersionMissing in issues <==> f.version == ""
    ensures Endpoint1UrlInvalid in issues <==> !isUrl(f.endpoint1Url)
    ensures Endpoint1TypeMissing in issues <==> f.endpoint1Type == ""
    ensures Endpoint2UrlInvalid in issues <==> Present(f.endpoint2Url) && !isUrl(f.endpoint2Url.value)
    ensures AuthTypeMissing in issues <==> f.authType == ""
    ensures DefaultInputMissing in issues <==> f.defaultInputMethod == ""
    ensures SupportedInputsMissing in issues <==> f.supportedInputMethods == ""
  {
    set x | x in GeneratorChecks && Violates(f, isUrl, x)
  }

  /** The form is accepted exactly when name, description, version, first
      endpoint type, auth type and both input-method fields meet their
      minimum lengths, the first URL passes the URL check and the second is
      absent, empty or a URL. */
  lemma GeneratorFormAcceptedIff(f: GeneratorForm, isUrl: string -> bool)
    ensures ValidateGeneratorForm(f, isUrl) == {} <==>
              && |f.name| >= 3 && |f.description| >= 10 && f.version != ""
              && isUrl(f.endpoint1Url) && f.endpoint1Type != ""
              && (Present(f.endpoint2Url) ==> isUrl(f.endpoint2Url.value))
              && f.authType != "" && f.defaultInputMethod != "" && f.supportedInputMethods != ""
  {
    var issues := ValidateGeneratorForm(f, isUrl);
    if issues != {} {
      var x :| x in issues;
    }
  }

  /** The untouched form is rejected: it has no name. */
  lemma DefaultFormRejected(isUrl: string -> bool)
    ensures NameTooShort in ValidateGeneratorForm(DefaultForm, isUrl)
  {
  }

  // ---------------------------------------------------------------------------
  // The card

  datatype Endpoint = Endpoint(url: string, kind: string)

  datatype Authentication = Authentication(kind: string, flow: Option<string>)

  datatype Features = Features(streaming: bool, pushNotifications: bool, fileUpload: bool)

  datatype InputMethods = InputMethods(defaultMethod: string, supported: seq<string>)

  /** One property of the fixed output schema: its name and its JSON type. */
  datatype SchemaProperty = SchemaProperty(name: string, kind: string)

  datatype OutputSchema = OutputSchema(kind: string, properties: seq<SchemaProperty>)

  /** The output schema every generated card declares. */
  const FixedOutputSchema := OutputSchema("object", [
    SchemaProperty("result", "string"),
    SchemaProperty("confidence", "number"),
    SchemaProperty("extracted_data", "object")])

  datatype AgentCard = AgentCard(
    name: string,
    description: string,
    version: string,
    endpoints: seq<Endpoint>,
    authentication: Authentication,
    features: Features,
    skills: seq<string>,
    inputMethods: InputMethods,
    outputSchema: OutputSchema)

  /** Trims every entry of a list. */
  function TrimAll(xs: seq<string>): (r: seq<string>)
    ensures |r| == |xs|
    ensures forall k :: 0 <= k < |r| ==> r[k] == Trim(xs[k])
  {
    seq(|xs|, k requires 0 <= k < |xs| => Trim(xs[k]))
  }

  /** `s.split(",").map(x => x.trim())`: one entry more than there are commas,
      empty entries kept, each without a comma and without outer
      whitespace. */
  function CommaList(s: string): (r: seq<string>)
    ensures |r| == Count(s, ',') + 1
    ensures forall k :: 0 <= k < |r| ==> ',' !in r[k]
    ensures forall k :: 0 <= k < |r| && |r[k]| > 0 ==> !IsSpace(r[k][0]) && !IsSpace(r[k][|r[k]| - 1])
  {
    TrimAll(Split(s, ','))
  }

  /** When no entry of a comma list has whitespace next to a comma or at
      either end, trimming removes nothing and joining the entries with
      commas gives the text back. */
  lemma CommaListJoin(s: string)
    requires forall k :: 0 <= k < |Split(s, ',')| ==>
               var p := Split(s, ',')[k];
               |p| > 0 ==> !IsSpace(p[0]) && !IsSpace(p[|p| - 1])
    ensures Join(CommaList(s), ',') == s
  {
    var pieces := Split(s, ',');
    forall k | 0 <= k < |pieces|
      ensures Trim(pieces[k]) == pieces[k]
    {
      TrimUnchangedWithoutOuterSpace(pieces[k]);
    }
    assert CommaList(s) == pieces;
    JoinSplit(s, ',');
  }

  /** The skills list: empty when the field is absent or empty, otherwise the
      trimmed comma list. */
  function Skills(skills: Option<string>): (r: seq<string>)
    ensures !Present(skills) ==> r == []
    ensures Present(skills) ==> r == CommaList(skills.value) && |r| == Count(skills.value, ',') + 1
  {
    if Present(skills) then CommaList(skills.value) else []
  }

  /** The endpoint list: the primary endpoint, then the second one when both
      its URL and its type are non-empty. */
  function Endpoints(f: GeneratorForm): (r: seq<Endpoint>)
    ensures 1 <= |r| <= 2
    ensures r[0] == Endpoint(f.endpoint1Url, f.endpoint1Type)
    ensures |r| == 2 <==> Present(f.endpoint2Url) && Present(f.endpoint2Type)
    ensures |r| == 2 ==> r[1] == Endpoint(f.endpoint2Url.value, f.endpoint2Type.value)
  {
    var first := [Endpoint(f.endpoint1Url, f.endpoint1Type)];
    if Present(f.endpoint2Url) && Present(f.endpoint2Type) then
      first + [Endpoint(f.endpoint2Url.value, f.endpoint2Type.value)]
    else first
  }

  /** The authentication part: a flow only when one is given. */
  function AuthenticationOf(f: GeneratorForm): (r: Authentication)
    ensures r.kind == f.authType
    ensures r.flow.Some? <==> Present(f.authFlow)
    ensures r.flow.Some? ==> r.flow == f.authFlow
  {
    Authentication(f.authType, if Present(f.authFlow) then f.authFlow else None)
  }

  /** `generateCardJson`'s card object. */
  function GenerateCard(f: GeneratorForm): (card: AgentCard)
    ensures card.name == f.name && card.description == f.description && card.version == f.version
    ensures card.endpoints == Endpoints(f)
    ensures card.authentication == AuthenticationOf(f)
    ensures card.features == Features(f.streamingSupport, f.pushNotifications, f.fileUploadSupport)
    ensures card.skills == Skills(f.skills)
    ensures card.inputMethods.defaultMethod == f.defaultInputMethod
    ensures card.inputMethods.supported == CommaList(f.supportedInputMethods)
    ensures |card.inputMethods.supported| >= 1
    ensures card.outputSchema == FixedOutputSchema
  {
    AgentCard(
      f.name, f.description, f.version,
      Endpoints(f),
      AuthenticationOf(f),
      Features(f.streamingSupport, f.pushNotifications, f.fileUploadSupport),
      Skills(f.skills),
      InputMethods(f.defaultInputMethod, CommaList(f.supportedInputMethods)),
      FixedOutputSchema)
  }

  const FileSuffix := "-agent-card.json"

  /** The file name: the lower-cased agent name with each whitespace run
      replaced by one `-`, then `-agent-card.json`. */
  function FileName(name: string): (r: string)
    ensures |r| >= |FileSuffix| && r[|r| - |FileSuffix|..] == FileSuffix
    ensures NoSpace(r)
    ensures var stem := r[..|r| - |FileSuffix|];
            Solid(stem, '-') == Solid(ToLower(name), '-')
    // each whitespace run of the lower-cased name is one dash in the stem
    ensures r == RunPieces(ToLower(name), '-', 0) + FileSuffix
  {
    var stem := ReplaceSpaceRuns(ToLower(name), '-');
    ReplaceSpaceRunsByPosition(ToLower(name), '-');
    assert NoSpace(FileSuffix);
    assert stem + FileSuffix == (stem + FileSuffix)[..|stem|] + FileSuffix;
    stem + FileSuffix
  }

  /** A name without whitespace keeps all its characters in the file name,
      lower-cased. */
  lemma FileNameOfSolidName(name: string)
    requires NoSpace(name)
    ensures FileName(name) == ToLower(name) + FileSuffix
  {
    assert NoSpace(ToLower(name));
  }

  // ---------------------------------------------------------------------------
  // Submitting and closing

  /** What a submit or close leaves behind: the form, the card shown in the
      dialog, and the card and file name handed to `onGenerate`, if any. */
  datatype Dialog = Dialog(form: GeneratorForm, generated: Option<AgentCard>)

  datatype Generated = Generated(card: AgentCard, fileName: string)

  datatype SubmitOutcome = SubmitOutcome(dialog: Dialog, handedOver: Option<Generated>, closed: bool)

  /** Submitting: a rejected form changes nothing and generates nothing; an
      accepted one hands the card and its file name over and resets the form,
      keeping the card on display. */
  function Submit(d: Dialog, isUrl: string -> bool): (o: SubmitOutcome)
    ensures o.handedOver.Some? <==> ValidateGeneratorForm(d.form, isUrl) == {}
    ensures o.handedOver.None? ==> o.dialog == d
    ensures o.handedOver.Some? ==>
              && o.handedOver.value == Generated(GenerateCard(d.form), FileName(d.form.name))
              && o.dialog == Dialog(DefaultForm, Some(GenerateCard(d.form)))
    ensures !o.closed
  {
    if ValidateGeneratorForm(d.form, isUrl) == {} then
      var card := GenerateCard(d.form);
      SubmitOutcome(Dialog(DefaultForm, Some(card)), Some(Generated(card, FileName(d.form.name))), false)
    else SubmitOutcome(d, None, false)
  }

  /** `handleClose`: the form is reset, the shown card cleared, and `onClose`
      called. */
  function Close(d: Dialog): (o: SubmitOutcome)
    ensures o.dialog == Dialog(DefaultForm, None) && o.handedOver.None? && o.closed
  {
    SubmitOutcome(Dialog(DefaultForm, None), None, true)
  }

  // ---------------------------------------------------------------------------
  // The generated card against the card validator

  /** The card as the card validator sees it after its JSON text is read back:
      every field present with the type it was written with. */
  function AsParsed(card: AgentCard): (raw: AgentSchema.RawCard)
    ensures raw.name.Value? && raw.description.Value? && raw.version.Value?
    ensures raw.authentication.Value? && raw.authentication.v.kind.Value?
    ensures raw.features.Value?
    ensures raw.endpoints.Value? && |raw.endpoints.v| == |card.endpoints|
    ensures forall i :: 0 <= i < |card.endpoints| ==>
              raw.endpoints.v[i] == AgentSchema.RawEndpoint(AgentSchema.Value(card.endpoints[i].url),
                                                            AgentSchema.Value(card.endpoints[i].kind))
  {
    AgentSchema.RawCard(
      AgentSchema.Value(card.name),
      AgentSchema.Value(card.description),
      AgentSchema.Value(card.version),
      AgentSchema.Value(seq(|card.endpoints|, i requires 0 <= i < |card.endpoints| =>
        AgentSchema.RawEndpoint(AgentSchema.Value(card.endpoints[i].url), AgentSchema.Value(card.endpoints[i].kind)))),
      AgentSchema.Value(AgentSchema.RawAuthentication(AgentSchema.Value(card.authentication.kind))),
      AgentSchema.Value(()))
  }

  /** A card whose endpoint URLs all pass the URL check passes the card
      validator once read back. */
  lemma ParsedCardIsValid(card: AgentCard, isUrl: string -> bool)
    requires forall i :: 0 <= i < |card.endpoints| ==> isUrl(card.endpoints[i].url)
    ensures AgentSchema.ValidateCard(AsParsed(card), isUrl) == []
  {
    var raw := AsParsed(card);
    assert forall i :: 0 <= i < |raw.endpoints.v| ==> AgentSchema.EndpointOk(raw.endpoints.v[i], isUrl);
    AgentSchema.CardAcceptedIff(raw, isUrl);
  }

  /** When both URL fields pass the check, so does every endpoint's URL. */
  lemma EndpointsAreUrls(f: GeneratorForm, isUrl: string -> bool)
    requires isUrl(f.endpoint1Url)
    requires Present(f.endpoint2Url) ==> isUrl(f.endpoint2Url.value)
    ensures forall i :: 0 <= i < |Endpoints(f)| ==> isUrl(Endpoints(f)[i].url)
  {
    var eps := Endpoints(f);
    assert |eps| == 2 ==> eps[1].url == f.endpoint2Url.value;
  }

  /** A card generated from an accepted form passes the card validator with
      the same URL check: the generator's schema already demands a URL for
      every endpoint it writes. */
  lemma GeneratedCardIsValid(f: GeneratorForm, isUrl: string -> bool)
    requires ValidateGeneratorForm(f, isUrl) == {}
    ensures AgentSchema.ValidateCard(AsParsed(GenerateCard(f)), isUrl) == []
  {
    assert Endpoint1UrlInvalid !in ValidateGeneratorForm(f, isUrl);
    assert Endpoint2UrlInvalid !in ValidateGeneratorForm(f, isUrl);
    EndpointsAreUrls(f, isUrl);
    ParsedCardIsValid(GenerateCard(f), isUrl);
  }
}
