# dagent-web decision rules in Dafny

dagent-web is the web front end of an agent marketplace. Users sign in with an
Ethereum wallet (Sign-In with Ethereum). They register and browse AI agents,
generate agent cards, pick LLM models and their costs, manage API keys, and
stake ether in an escrow contract. Almost all of it is user interface. This
project models the decision rules and string builders inside it as pure Dafny
functions over immutable datatypes. Components with state (the LLM picker, the
registration dialog, the staking dialog, the marketplace page) become a
record plus transition functions. Wallet, auth server, HTTP and clock calls
become inputs or parameters.

One module per source file:

| module | file | source |
|---|---|---|
| `Siwe` | siwe.dfy | `src/components/siew.tsx`: the sign-in text and the `login` call sequence |
| `AuthProvider` | auth.dfy | `src/components/auth-provider.tsx`: signed-in flag, route guard, `logout`, `useAuth` |
| `Middleware` | middleware.dfy | `src/middleware.ts`: CORS headers, preflight, session cookie |
| `Staking` | staking.dfy | `src/hooks/contracts.ts`: which escrow call is dispatched |
| `StakePopup` | stake_popup.dfy | `src/components/ui/stake-popup.tsx`: staking form and dialog |
| `AgentSchema` | agent_schema.dfy | `src/lib/validation/agent-schema.ts`: agent form and agent card validators |
| `CardGenerator` | card_generator.dfy | `src/components/agent-card-generator.tsx`: generator schema, card object, file name |
| `Llm` | llm.dfy | `src/lib/api/llm.service.ts`: providers, lookup, filter and sort of the cost table |
| `UseLlm` | use_llm.dfy | `src/hooks/useLLM.ts`: the provider/model picker |
| `Marketplace` | marketplace.dfy | `src/components/agents/agent-marketplace.tsx`: filters, categories, count, stars, dialog handlers |
| `RegistrationModal` | registration_modal.dfy | `src/components/agents/agent-registration-modal.tsx`: configure/confirm/success machine |
| `ApiManage` | api_manage.dfy | `src/app/api-manage/page.tsx`: permission checkboxes and key submit |
| `WalletConnection` | wallet_connection.dfy | `src/components/wallet/wallet-connection.tsx`: network name, short address, panel choice |

Three support modules hold shared definitions:
- `Options` (options.dfy): `Option` and `Result`.
- `Text` (text.dfy): the JavaScript string operations the sources use, such as split, join, trim, `toLowerCase`, `includes`, `slice` and number-to-text.
- `Seqs` (seqs.dfy): sequence helpers, including `Array.from(new Set(...))` and `filter(y => y !== x)`.

Where the repository's design description and its code differ, the model
follows the code. The description asks for these, and the code has none of them:
- a login session that is dropped when the wallet switches address or chain;
- rejection of a second, concurrent login;
- a `WalletNotConnected` error from `stakeFn`.

As written, `stakeFn` returns `null` without an address, and `login` has no session
state.

## Model

| member | source | states |
|---|---|---|
| Siwe.ChainIdText | src/components/siew.tsx:34 | The chain id in the template is its decimal digits, or the text "undefined" when the wallet reports no chain; it never holds a line break |
| Siwe.BuildMessage | src/components/siew.tsx:29-36 | When address, nonce and timestamp hold no line break, the signed text splits at line breaks into exactly eight lines: domain header, address, blank line, URI, "Version: 1", Chain ID, Nonce, Issued At |
| Siwe.ParseBuildRoundTrip | src/components/siew.tsx:29-36 | Reading the fields back out of a built message gives the address, chain id text, nonce and timestamp it was built from |
| Siwe.ChainIdTextInjective | src/components/siew.tsx:34 | Different chain ids (or a chain id and none) give different chain-id text |
| Siwe.BuildMessageInjective | src/components/siew.tsx:29-36 | The message determines address, chain, nonce and timestamp: two inputs that differ in any of them give different texts |
| Siwe.Login | src/components/siew.tsx:13-58 | Connect is attempted iff the wallet was not connected. Without an address no nonce, sign or verify call is made, and no toast is shown unless connect threw. The success toast (with the server's user id) appears iff verify returned data. The error toast appears iff the last call threw or the nonce came back missing |
| Siwe.Authenticate | src/components/siew.tsx:22-53 | The calls after the address check are nonce, sign, verify in that order. A missing nonce stops after the nonce request. What is signed is the template filled with the returned nonce. Verify receives that message and the returned signature. A toast is always shown |
| Siwe.LoginCallOrder | src/components/siew.tsx:16-42 | Every run's calls have strictly increasing protocol rank (connect, nonce, sign, verify), so each happens at most once and in order; a missing nonce leaves no sign or verify call |
| Siwe.LoginCallArguments | src/components/siew.tsx:22-39 | The nonce request carries the wallet's address and chain id; the signed text is the template for that address, chain, the returned nonce and the clock |
| Siwe.LoginVerifiesLast | src/components/siew.tsx:39-47 | A verify call comes right after the sign call and receives the very message signed, the signature the wallet returned, and the same address and chain id; nothing is verified without a signature |
| Siwe.LoginHappyPath | src/components/siew.tsx:13-50 | A connected wallet whose nonce, signature and verification all succeed makes exactly the three calls nonce, sign, verify and ends in "Logged in as" with the server's user id |
| AuthProvider.OnWalletChange | src/components/auth-provider.tsx:52-55 | After the wallet effect, loading is over and the user is authenticated iff the wallet is connected and the address is non-empty |
| AuthProvider.StartsWithAny | src/components/auth-provider.tsx:61-63 | `some(route => pathname.startsWith(route))` holds iff some listed route is a prefix of the path |
| AuthProvider.ProtectedIffListedPrefix | src/components/auth-provider.tsx:30-38 | A path is protected iff it starts with one of /home, /framework, /docs, /api-manage, /add-agents, /wallet, /dashboard (prefix, not equality) |
| AuthProvider.RouteGuard | src/components/auth-provider.tsx:58-73 | No redirect while loading; a redirect to "/" iff the path is protected and the user is not authenticated; a redirect to "/home" iff the path is exactly "/" and the user is authenticated; nothing else |
| AuthProvider.LandingIsNotProtected | src/components/auth-provider.tsx:30-41 | "/" is not a protected path, so the two redirects never compete |
| AuthProvider.RedirectTargetIsStable | src/components/auth-provider.tsx:64-72 | Following a redirect never triggers another: the guard settles after one navigation |
| AuthProvider.NoAddressIsSentToLanding | src/components/auth-provider.tsx:52-68 | A wallet without an address on a protected path is sent to "/" once the wallet effect has run, connected or not |
| AuthProvider.Logout | src/components/auth-provider.tsx:80-87 | Logout navigates to "/" iff the disconnect succeeded; a failed disconnect is logged and causes no navigation |
| AuthProvider.UseAuth | src/components/auth-provider.tsx:17-23 | `useAuth` fails with its fixed message iff there is no provider, and otherwise returns the provider's context unchanged |
| Middleware.Handle | src/middleware.ts:4-41 | The four CORS headers are set iff the path starts with "/api/": credentials "true", origin echoed (or "*" when absent or empty), the fixed method and header lists. Every OPTIONS request is answered 200 with those headers and no cookie. Otherwise a session cookie is re-set with the same value, httpOnly, sameSite lax, path "/", and secure iff in production |
| Middleware.PlainRequestPassesThrough | src/middleware.ts:29-40 | A non-OPTIONS request without a session cookie passes on with only the CORS headers; outside /api/ it passes on untouched |
| Middleware.PreflightHeadersMatch | src/middleware.ts:24-27 | A preflight carries exactly the headers the same request would get with any other method |
| Middleware.ProductionOnlyAffectsSecure | src/middleware.ts:30-38 | The production flag changes nothing but the cookie's secure option |
| Staking.StakeFn | src/hooks/contracts.ts:15-25 | `stakeFn` dispatches nothing iff there is no address; otherwise `createEscrow(provider, userId)` with the two fixed constants and exactly 0.01 ether (10^16 wei) attached |
| Staking.PullEnabled | src/hooks/contracts.ts:45 | The pull simulation is enabled iff an address and a stored user id are present and the amount is positive |
| Staking.Simulate | src/hooks/contracts.ts:39-47 | A simulation yields a request iff it is enabled and the wallet accepts it, and the request is the configured call |
| Staking.WriteSimulated | src/hooks/contracts.ts:51-55 | The write guard fires iff address, stored user id and a simulated request all exist, and it writes exactly that request |
| Staking.PullWritesOnlyPositiveAmounts | src/hooks/contracts.ts:35-55 | A pull write happens iff address and user id are present, the amount is positive and the wallet accepts; it is the `pullEscrow` call for that amount; a non-positive amount stops before the simulation |
| Staking.EmptyWriteMatchesEnable | src/hooks/contracts.ts:66-86 | The empty-escrow write happens iff the simulation's enable condition holds and the wallet accepts, and it is the argument-less `emptyEscrow` call |
| StakePopup.Validate | src/components/ui/stake-popup.tsx:17-26 | Each schema issue is reported iff its check fails (action not stake/pull, amount not positive, amount below 0.001, empty token address); the form is accepted iff all four hold |
| StakePopup.AmountChecksCollapse | src/components/ui/stake-popup.tsx:21-24 | The positivity check adds nothing: an amount passes both iff it is at least 0.001 |
| StakePopup.HandleStakeAction | src/components/ui/stake-popup.tsx:68-79 | After `onStake` settles, processing is off either way; only success resets the form to its defaults and closes the dialog; a failure keeps the form |
| StakePopup.Submit | src/components/ui/stake-popup.tsx:128 | `onStake` is called, with the form's values, iff the schema accepts them; a rejected form changes nothing |
| StakePopup.HandleClose | src/components/ui/stake-popup.tsx:81-85 | Closing always resets the form, clears processing and calls `onClose`, without staking |
| StakePopup.SetMaxAmount | src/components/ui/stake-popup.tsx:87-92 | Max sets the amount to the available balance when staking and to the staked balance otherwise; nothing else changes |
| StakePopup.SubmitDisabled | src/components/ui/stake-popup.tsx:260 | The submit button is disabled iff processing or the amount is zero or negative |
| StakePopup.PreviewShown | src/components/ui/stake-popup.tsx:229 | The transaction preview is shown exactly when the amount would enable the submit button |
| StakePopup.TokenAddressStaysEmpty | src/components/ui/stake-popup.tsx:216-227 | No field is bound to the token address: from the empty default it stays empty whatever the user does |
| StakePopup.SubmitNeverReachesOnStake | src/components/ui/stake-popup.tsx:58-62 | Hence from the initial dialog no sequence of user actions reaches `onStake`: the schema always reports the missing token address |
| AgentSchema.ValidateAgentForm | src/lib/validation/agent-schema.ts:4-22 | Each issue is reported iff its bound is broken: name length outside 3..50, description outside 10..500, provider not one of the five, empty model, a negative optional cost, cost per token not positive, below 0.0001 or above 1 |
| AgentSchema.AgentFormAcceptedIff | src/lib/validation/agent-schema.ts:4-22 | The form is accepted iff name has 3..50 characters, description 10..500, the provider is one of the five, a model is given, optional costs are non-negative and 0.0001 <= cost per token <= 1 |
| AgentSchema.EndpointsIssues | src/lib/validation/agent-schema.ts:34-41 | When `endpoints` is an array, endpoint i is reported iff its url is not a string passing the URL check or its type is not a string; no other endpoint issue is reported |
| AgentSchema.ValidateCard | src/lib/validation/agent-schema.ts:30-48 | Each whole-field issue is reported iff name, description or version is not a string, or endpoints, authentication or features has the wrong shape; each endpoint issue iff that endpoint fails |
| AgentSchema.CardAcceptedIff | src/lib/validation/agent-schema.ts:30-48 | A card is accepted iff name, description and version are strings, endpoints are absent or all pass, authentication is absent or has a string type, and features is absent or an object |
| CardGenerator.ValidateGeneratorForm | src/components/agent-card-generator.tsx:17-33 | Each issue is reported iff its field breaks its rule: name shorter than 3, description shorter than 10, empty version, primary URL not a URL, empty primary type, second URL non-empty and not a URL, empty auth type or input methods |
| CardGenerator.GeneratorFormAcceptedIff | src/components/agent-card-generator.tsx:17-33 | The form is accepted iff all nine rules hold |
| CardGenerator.DefaultFormRejected | src/components/agent-card-generator.tsx:57-66 | The untouched form is rejected (its name is empty) |
| CardGenerator.CommaList | src/components/agent-card-generator.tsx:76-78 | `split(",").map(trim)` has one entry more than there are commas (empty entries kept), each without a comma and without outer whitespace |
| CardGenerator.CommaListJoin | src/components/agent-card-generator.tsx:76-78 | When no entry has outer whitespace, joining the list with commas gives the text back |
| CardGenerator.Skills | src/components/agent-card-generator.tsx:71-73 | An absent or empty skills field gives []; otherwise the trimmed comma list, comma count + 1 entries |
| CardGenerator.Endpoints | src/components/agent-card-generator.tsx:81-94 | The primary endpoint always comes first; the list has two entries iff both second URL and second type are non-empty, the second being that pair |
| CardGenerator.AuthenticationOf | src/components/agent-card-generator.tsx:102-105 | The authentication keeps the auth type and has a flow iff the auth flow is non-empty |
| CardGenerator.GenerateCard | src/components/agent-card-generator.tsx:97-124 | The card copies name, description, version and the three feature flags, carries the endpoint list, authentication and skills above, at least one supported input method, and the fixed output schema |
| CardGenerator.FileName | src/components/agent-card-generator.tsx:132 | The file name is the lower-cased name with each maximal whitespace run turned into exactly one "-", followed by "-agent-card.json"; it contains no whitespace and keeps every non-whitespace, non-dash character of the name in order |
| CardGenerator.FileNameOfSolidName | src/components/agent-card-generator.tsx:132 | A name without whitespace gives exactly its lower-cased form followed by "-agent-card.json" |
| CardGenerator.Submit | src/components/agent-card-generator.tsx:127-141 | The card and its file name are handed over iff the schema accepts the form; then the form is reset and the card stays on display; a rejected form changes nothing; the dialog stays open |
| CardGenerator.Close | src/components/agent-card-generator.tsx:144-148 | Closing resets the form, clears the shown card, hands nothing over and calls `onClose` |
| CardGenerator.AsParsed | src/components/agent-card-generator.tsx:97-127 | The written card, read back, has every field the card validator checks present with the type it was written with, endpoint by endpoint |
| CardGenerator.ParsedCardIsValid | src/lib/validation/agent-schema.ts:30-48 | A written card whose endpoint URLs pass the URL check passes the card validator |
| CardGenerator.EndpointsAreUrls | src/components/agent-card-generator.tsx:21-23 | When both URL fields pass their rules, every endpoint written has a URL that passes the check |
| CardGenerator.GeneratedCardIsValid | src/components/agent-card-generator.tsx:81-94 | A card generated from an accepted form passes the card validator with the same URL check |
| Llm.FindByValue | src/lib/api/llm.service.ts:98 | `find(p => p.value === value)`: none iff no provider has the value, else the first one that has it |
| Llm.GetProviderByValue | src/lib/api/llm.service.ts:97-99 | A provider is found iff the value is one of the provider values, and it is a listed provider with that value |
| Llm.ValidIffFound | src/lib/api/llm.service.ts:97-106 | `isValidProvider(v)` holds iff `getProviderByValue(v)` is defined, and the provider found has value v |
| Llm.ProviderValuesAreFormProviders | src/lib/api/llm.service.ts:38-44 | The provider values are, in order, the five names the agent form accepts |
| Llm.FilterModels | src/lib/api/llm.service.ts:72-77 | Each model is kept, as often as it occurs, iff it is shown in the playground or its provider equals the requested one ignoring case |
| Llm.FilterKeepsAll | src/lib/api/llm.service.ts:72-77 | A table whose every model passes the filter comes out unchanged, order included |
| Llm.LexLeTotal | src/lib/api/llm.service.ts:78 | The name order is total, so the sort comparator orders any two models |
| Llm.Insert | src/lib/api/llm.service.ts:78 | Inserting into a sorted list keeps it sorted and adds exactly the one model |
| Llm.SortByModel | src/lib/api/llm.service.ts:78 | The sorted list is a permutation of the input, ascending by model name |
| Llm.FetchModelsForProvider | src/lib/api/llm.service.ts:49-85 | No request and [] iff the provider is empty or "Custom". Otherwise the request URL carries the lower-cased provider, and success comes iff an ok response with a table arrived. The result is a permutation of the kept models sorted by name. Every failure is "Failed to fetch models for <provider>" |
| Llm.FetchKeepsWholeTable | src/lib/api/llm.service.ts:72-80 | When every model is shown in the playground, a successful fetch returns all of them |
| UseLlm.Init | src/hooks/useLLM.ts:33-40 | Initially the provider is the initial provider or null when empty, no models, no selection, not loading, no error |
| UseLlm.FetchModels | src/hooks/useLLM.ts:45-77 | Without a target or for "Custom" the list and selection are cleared and nothing else changes. Otherwise loading ends and the selection is cleared. The list becomes the service's answer with no error, or empty with the service's message as the error |
| UseLlm.EffectRerun | src/hooks/useLLM.ts:45-77 | Because `fetchModels` depends on the stored provider and the mount effect depends on `fetchModels`, a step that changes the provider reruns the effect: with auto-fetch on and a real initial provider, the list becomes the initial provider's models and the selection is cleared; otherwise nothing changes |
| UseLlm.SetProviderIntended | src/hooks/useLLM.ts:82-94 | The provider is stored and the selection cleared; the list is the chosen provider's fetched models when auto-fetch is on and the provider is a real one, and empty otherwise |
| UseLlm.SetProvider | src/hooks/useLLM.ts:45-94 | `setProvider` followed by the effect rerun. Keeping the same provider, or an effect that does not fetch, gives the intended result. Otherwise both fetches start (each clearing the error) before either settles, and they settle in start order: the list ends up holding the initial provider's models, the error is the effect fetch's message when it fails, the own fetch's message when only that one fails, and none otherwise. The provider is always the chosen one and the selection is cleared |
| UseLlm.CustomListsInitialModels | src/hooks/useLLM.ts:126-134 | With "OpenAI" as the initial provider and auto-fetch on, choosing "Custom" lists a model the OpenAI fetch returned, while the intended step leaves the list empty |
| UseLlm.SetModel | src/hooks/useLLM.ts:99-105 | The selection is the first listed model with that name, or null iff none has it; nothing else changes |
| UseLlm.ClearError | src/hooks/useLLM.ts:110-112 | Only the error changes, to null |
| UseLlm.Reset | src/hooks/useLLM.ts:117-134 | Reset gives back the initial state when the provider was already the initial one; otherwise the effect reruns, and the reset equals a fresh mount |
| UseLlm.Mount | src/hooks/useLLM.ts:126-134 | On mount the initial provider's models are fetched iff auto-fetch is on and the initial provider is real; otherwise the state is the initial one |
| UseLlm.RunKeepsInvariant | src/hooks/useLLM.ts:45-123 | Whatever the user does, the selected model is always one of the listed models and no completed step leaves the picker loading |
| UseLlm.MountIsValid | src/hooks/useLLM.ts:126-134 | Mounting yields a picker that satisfies that invariant and is not loading |
| UseLlm.SetModelIdempotent | src/hooks/useLLM.ts:99-105 | Selecting the same name twice is selecting it once |
| Marketplace.FilterAgents | src/components/agents/agent-marketplace.tsx:217-230 | The shown agents are those passing visibility, category and search, each as often as in the list, in list order (a subsequence) |
| Marketplace.InitialFiltersShowAll | src/components/agents/agent-marketplace.tsx:211-230 | With the initial filters (all, all, empty query) the whole list is shown |
| Marketplace.PublicPrivatePartition | src/components/agents/agent-marketplace.tsx:218-220 | The public and private views split the "all" view between them |
| Marketplace.CategoryChoices | src/components/agents/agent-marketplace.tsx:232 | The choices start with "all", then each agent category once, in first-occurrence order; no choice repeats unless an agent's category is "all" |
| Marketplace.CategoryChoiceSelects | src/components/agents/agent-marketplace.tsx:222-232 | Choosing a listed category shows exactly the agents of that category, and every agent's category is listed |
| Marketplace.AllIsNoCategory | src/components/agents/agent-marketplace.tsx:28 | "all" is not one of the six agent categories |
| Marketplace.CountLabel | src/components/agents/agent-marketplace.tsx:329 | The count line is the decimal count followed by " agent found" for exactly one, " agents found" otherwise |
| Marketplace.CountLabelReadsBack | src/components/agents/agent-marketplace.tsx:329 | The leading digits of the count line read back as the number of agents shown, and the singular is used iff that number is 1 |
| Marketplace.Stars | src/components/agents/agent-marketplace.tsx:246-254 | Exactly five stars; star i is filled iff i + 1 <= rating (i < floor(rating)); filled stars come first |
| Marketplace.RegisterAgent | src/components/agents/agent-marketplace.tsx:234-237 | Registering an agent opens the dialog on that agent; the filters stay |
| Marketplace.CloseRegistration | src/components/agents/agent-marketplace.tsx:239-244 | Completing or closing closes the dialog and clears the agent, so the dialog draws nothing; the filters stay |
| Marketplace.OnDialogEffect | src/components/agents/agent-marketplace.tsx:374-382 | A registration or close reported by the dialog shuts it; a quiet step changes nothing |
| Marketplace.RegisterFromPage | src/components/agents/agent-marketplace.tsx:234-244 | Register from the page, click, let the timer fire: the page hears the agent's id and shuts the dialog, filters kept |
| RegistrationModal.SettingsFor | src/components/agents/agent-registration-modal.tsx:45-48 | The payload name is the custom name if non-empty, else the agent's name; the cost limit is absent iff its field is empty, else the parsed number |
| RegistrationModal.HandleRegister | src/components/agents/agent-registration-modal.tsx:37-42 | Without an agent nothing changes; otherwise the dialog turns busy, moves to confirm and captures the agent, keeping the draft |
| RegistrationModal.RegistrationTimer | src/components/agents/agent-registration-modal.tsx:44-51 | The first timer reports the captured agent's id, visibility and settings, shows success, stops being busy and sets the close timer |
| RegistrationModal.CloseTimer | src/components/agents/agent-registration-modal.tsx:53-59 | The second timer calls `onClose` and returns the dialog to configure; from the success step that is exactly the initial state |
| RegistrationModal.Handle | src/components/agents/agent-registration-modal.tsx:63-241 | User events do nothing unless the dialog renders (open and given an agent). The register button acts only in configure and not while busy, and moves to confirm. Close keeps the draft and calls `onClose` only when shown. Only the registration timer reports a registration |
| RegistrationModal.HandleKeepsConsistent | src/components/agents/agent-registration-modal.tsx:37-61 | Every event keeps busy iff confirm, timer captured iff confirm, close timer set iff success |
| RegistrationModal.RunKeepsConsistent | src/components/agents/agent-registration-modal.tsx:31-61 | From the initial state, any event sequence keeps that lock-step |
| RegistrationModal.RegistrationCycle | src/components/agents/agent-registration-modal.tsx:37-61 | A click and the two timers report the registration, then the close, and return the dialog to its initial state |
| RegistrationModal.CloseDoesNotCancel | src/components/agents/agent-registration-modal.tsx:37-81 | Closing while registering does not cancel: the timer still reports the captured agent after the parent has dropped it |
| ApiManage.Toggle | src/app/api-manage/page.tsx:67-73 | A ticked permission is removed everywhere it occurs, an unticked one appended at the end; other permissions keep their counts and membership |
| ApiManage.TogglePermission | src/app/api-manage/page.tsx:67-73 | Toggling flips that checkbox, no other, and keeps the typed name |
| ApiManage.ToggleTwice | src/app/api-manage/page.tsx:67-73 | Toggling twice restores every checkbox; from unticked it restores the same list |
| ApiManage.ToggleKeepsDistinct | src/app/api-manage/page.tsx:67-73 | Toggling keeps a repeat-free selection repeat-free |
| ApiManage.CreateKey | src/app/api-manage/page.tsx:60-65 | With an empty name the required field blocks the submit; otherwise the request carries the name and ticks, the name is cleared and the ticks stay |
| ApiManage.CreateKeyOnce | src/app/api-manage/page.tsx:60-65 | After one request a second submit asks for nothing until a name is typed |
| ApiManage.ClicksStayOffered | src/app/api-manage/page.tsx:149-157 | Clicking offered checkboxes keeps the ticks among the offered four and free of repeats |
| ApiManage.InitialFormOffered | src/app/api-manage/page.tsx:58 | The initial ticks are just "read", repeat-free and offered |
| WalletConnection.NetworkName | src/components/wallet/wallet-connection.tsx:42-50 | Chain ids 1, 11155111, 137 and 80001 get their four names; any other id or none is "Unknown Network" |
| WalletConnection.ChainOfName | src/components/wallet/wallet-connection.tsx:42-50 | A name leads back to a chain iff it is one of the four known names |
| WalletConnection.NetworkNameRoundTrip | src/components/wallet/wallet-connection.tsx:42-52 | A shown known name leads back to the chain id it came from; the unknown name to none |
| WalletConnection.NetworkNameInjective | src/components/wallet/wallet-connection.tsx:42-50 | Two chains shown under the same known name are the same chain |
| WalletConnection.ShortenAddress | src/components/wallet/wallet-connection.tsx:108 | The short address is the first (up to) six characters, "...", then the last (up to) four, with JavaScript slice bounds; no address gives "..." |
| WalletConnection.ShortenLongAddress | src/components/wallet/wallet-connection.tsx:108 | An address of ten or more characters shows as thirteen: its first six, the dots, its last four |
| WalletConnection.ShortenShortAddressRepeats | src/components/wallet/wallet-connection.tsx:108 | Shorter addresses repeat characters: "abcdefg" shows as "abcdef...defg" |
| WalletConnection.Render | src/components/wallet/wallet-connection.tsx:54-121 | Install prompt iff no MetaMask. Connect prompt iff MetaMask but not connected. Details iff both, showing the short address, the network name, and the formatted balance or "Loading..." |
| WalletConnection.FirstPaintIsInstallPrompt | src/components/wallet/wallet-connection.tsx:13-23 | An instance of `Render` at the flag's initial value `false` (the flag is only set later, in an effect): whatever the account state, the panel drawn is the install prompt |
| Text.ToLower | src/components/agent-card-generator.tsx:132 | `toLowerCase` (ASCII): same length, each character lower-cased, no upper-case letter left |
| Text.Trim | src/components/agent-card-generator.tsx:72 | `trim`: the middle of the string after the leading and before the trailing whitespace run, neither end whitespace |
| Text.Split | src/components/agent-card-generator.tsx:72 | `split(sep)`: one piece more than separators, no piece holding the separator |
| Text.JoinSplit | src/components/agent-card-generator.tsx:76-78 | Joining the pieces of a split with the separator gives the text back |
| Text.ReplaceSpaceRuns | src/components/agent-card-generator.tsx:132 | `replace(/\s+/g, dash)`: no whitespace left, never longer, unchanged without whitespace, and the same non-space, non-dash characters in order |
| Text.ReplaceSpaceRunsByPosition | src/components/agent-card-generator.tsx:132 | The replacement equals a position-by-position reference: every non-space character is kept in place, the first whitespace character of each run gives one dash, and the rest of the run gives nothing |
| Text.ReplaceTwoSpaces | src/components/agent-card-generator.tsx:132 | "my  agent" becomes "my-agent": a run of two spaces gives one dash |
| Text.NatToDecimal | src/components/agents/agent-marketplace.tsx:329 | A count renders as at least one decimal digit, with no leading zero except for 0 itself |
| Text.DecimalRoundTrip | src/components/agents/agent-marketplace.tsx:329 | Reading back the rendered digits gives the number |
| Seqs.Distinct | src/components/agents/agent-marketplace.tsx:232 | `Array.from(new Set(xs))`: each value of xs once, in order of first occurrence |
| Seqs.RemoveAll | src/app/api-manage/page.tsx:69 | `filter(p => p !== x)`: no x left, every other value as often as before, in order |

## Findings

| source | as written | input that shows it | evidently intended | confidence | as-written member | corrected member |
|---|---|---|---|---|---|---|
| src/hooks/useLLM.ts:126-134 | The mount effect lists `fetchModels` in its dependencies. `fetchModels` is rebuilt whenever `selectedProvider` changes (line 76). So every provider change reruns the effect, and it fetches the initial provider's models | Options `{ autoFetchOnProviderChange: true, initialProvider: "OpenAI" }`, then `setProvider("Custom")`: the list shows OpenAI's models under the provider "Custom" | The comment says "on mount": fetch the initial provider's models once, so the list shows the chosen provider's models (empty for "Custom") | medium, not executed; no call site in the repository passes `initialProvider` | UseLlm.CustomListsInitialModels | UseLlm.SetProviderIntended |

## Left out

- Rendering, styling and dialogs are not modelled. Only the values that rendering decides on are: the panel, the stars, the count line, whether the dialog draws.
- Wallet and chain calls are parameters:
  - wagmi connect, sign, simulate and write, and balances, appear as responses or the `accepted` flag;
  - viem `parseEther` / `formatEther`, and `parseFloat(...).toFixed(4)`, appear as given numbers or a formatting function;
  - `amount.toString()` for the pull amount arrives already converted to wei.
- The auth server, the Helicone download, `fetch`/`response.json()`, `localStorage` and the clock are inputs. A body that cannot be read as a table is an absent table. The router push is the returned redirect.
- JSON text and file objects are left out. `JSON.stringify`, `Blob` and `File` are not modelled; the card is a structured value and `CardGenerator.AsParsed` stands for reading its text back.
- Logging is left out. The `console.log` and `console.error` calls in `login`, in the service's and the hook's catch blocks, and elsewhere are not modelled; they change no state.
- UseLlm.SetProvider: when its own fetch and the effect's rerun fetch are both in flight, only the settle order matching the start order is modelled. The other order (the effect's download finishing first) would leave the chosen provider's models and the own fetch's outcome.
- Timers, overlapping fetches and double clicks are left out. The registration dialog's two timers are events. A fetch is one completed step, so the intermediate `isLoading = true` state is not observable, and stale results from overlapping fetches are not modelled.
- The middleware's `matcher` configuration (which paths Next.js runs it on) is left out.
- Text.ToLower: ASCII only; `toLowerCase`, `toUpperCase` and `\s` act on all of Unicode in JavaScript, and lengths here count characters, not UTF-16 code units.
- Llm.SortByModel: ordinal character order stands in for the locale-aware `localeCompare`, and stability of the sort is not stated.
- Llm.FetchModelsForProvider: the error thrown for a bad status (with status text) is only observed through the catch, which replaces it by the single message, so it is not kept.
- CardGenerator.ValidateGeneratorForm: the schema library's URL check is the parameter `isUrl`, as it is for `AgentSchema.ValidateCard`.
- AgentSchema.ValidateCard: lists the whole-field issues before the per-endpoint ones, where the library interleaves them in field order; issue messages are not modelled for any schema.
- StakePopup.SubmitDisabled: amounts are `real`, so the NaN that `!watchedAmount` also catches, and binary floating point in general, are not modelled; the same holds for the cost bounds in `AgentSchema`.
- Staking.PullEnabled: the `typeof window` check for server rendering is left out, as the stored user id is an input.
- Text.JsSlice: its own contract only bounds the length; `WalletConnection.ShortenAddress` states what its two uses give.
- Marketplace: the sample agent data is not reproduced; every operation takes the agent list as a parameter. The `ExpandableAgentCards` props mapping is presentation.
- ApiManage: the sample key list, the copy and revoke buttons, and the `console.log` of the request are left out; the request is returned instead.
- AuthProvider: the `login` placeholder in the context does nothing and is not modelled.
