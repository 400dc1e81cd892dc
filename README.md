# langfuse-controller, modelled in Dafny

langfuse-controller is a Kubernetes operator. It mirrors five custom resources into a Langfuse server:

- `LangfuseProject`;
- `LangfuseAPIKey`;
- `LangfusePrompt`;
- `LangfuseScoreConfig`;
- `LangfuseModel`.

Each kind has a controller whose `Reconcile` runs the same steps once:

1. fetch the object;
2. stop if it is already done (the gate);
3. for the kinds that belong to a project, wait until the parent project has a Langfuse ID;
4. make one call to Langfuse;
5. for an API key, hand the new credentials over in a Secret;
6. write the outcome back into the object's status.

The HTTP adapter builds each call:

- the base URL comes from the environment;
- every request carries a Basic `Authorization` header and a JSON `Content-Type`;
- each operation has a fixed verb, path and body;
- any answer with status 400 or more is an error.

## How the model is built

- **`Resources.Store`** is the API server. It has one `map` per kind, keyed by namespace and name.
  - "Not found" on a fetch follows from what the maps hold, and so does "already exists" on creating a secret.
  - Every other failure is a scripted `Option<Error>` handed to the operation: an unreachable server, a conflict, a refused write, a failed controller reference. A scripted fault wins over what the maps hold, as the API server's answer would.
  - `Status().Update` replaces only the stored object's status.
- **`LangfuseClient.Client`** is the adapter.
  - `Do` mutates the `HttpRequest`'s header with two `Set` calls, then appends the request as sent to a ghost `log`.
  - The server's answer is a `Response` parameter. For operations that decode a body, the decoder's outcome is a parameter too.
  - Every `Create*`/`Get*` method states the exact request it adds to the log, and how it turns the answer into a value or an error.
- **Each controller** is a class holding the store and the client.
  - Its `Reconcile` method states, path by path, the outcome (`Done`, `Requeue` or `Fail(err)`), the request logged (if any) and the new contents of the maps it may modify.
  - A failed fetch, the gate and the dependency wait all state that nothing was written and nothing was sent.
  - A failed Langfuse call leaves only its request in the log and writes no status, except for a project, whose failed create writes the state "Error".
- **The `Authorization` value** is specified in terms of its standards, not an opaque library call:
  - `Base64` follows section 4 of RFC 4648 and is proved to round-trip both ways.
  - `Utf8` is the byte form Go gives a string, following RFC 3629, and is proved to round-trip both ways.
  - `BasicAuth` implements section 2 of RFC 7617. `BasicAuth.ParseCredentials` proves that a server decoding the header recovers the public and the secret key, as long as the public key has no colon.
- **`Scenarios`** runs the reconcilers on small clusters and shows that each reconciler is idempotent:
  - project "proj-a" gets "prj_123", then API key "key-a" gets secret "sec-a";
  - a prompt whose project is missing fails with "not found";
  - a model whose input price is "1e400" is posted with an empty body, as written, and with that price left out, as corrected;
  - after a successful run, a second run sends nothing and writes nothing, whatever the server would answer.

The model follows the code, including where it behaves in ways a reader of the operator's own README might not expect:

- **The gate** of the four condition-carrying kinds checks only that the first condition's status is True. It never looks at the condition's type.
- **A project** whose create call succeeds is written back as "Ready" with whatever ID the server returned. That ID may be empty, and the next reconcile would then create the project again.
- **An existing secret** with the target name is kept as it is. The credentials of the newly created key are then not stored anywhere.
- **The dependency error is returned as it is, "not found" included.** A prompt, score config or API key whose project does not exist therefore fails and is retried with backoff. It is not requeued.

## Model

| member | source | states |
|---|---|---|
| Errors.IgnoreNotFound | internal/controller/langfuseproject_controller.go:55-57 | "not found" becomes no error; every other error passes through unchanged |
| Errors.IgnoreAlreadyExists | internal/controller/langfuseapikey_controller.go:102-107 | "already exists" becomes no error; every other error passes through unchanged |
| Resources.Fetch | internal/controller/langfuseapikey_controller.go:58-72 | a `Get` succeeds exactly when there is no fault and the key is present, and then yields the stored object; a missing key is "not found"; a fault is returned as it is |
| Resources.StatusWriteError | internal/controller/langfuseproject_controller.go:78-81 | a status write fails exactly when there is a fault or the object is gone |
| Resources.Returned | internal/controller/langfuseprompt_controller.go:95-99 | returning an empty result with `err` is `Done` exactly when `err` is nil, and otherwise fails with that error |
| Resources.FirstConditionTrue | internal/controller/langfuseapikey_controller.go:63 | the gate: the condition list is not empty and its first condition's status is True; its type is not looked at (no ensures of its own; the same test is at langfuseprompt_controller.go, langfusescoreconfig_controller.go and langfusemodel_controller.go) |
| Resources.AvailableCondition | internal/controller/langfuseapikey_controller.go:110-118 | the committed condition passes the gate of the next reconcile |
| Resources.Store.UpdateProjectStatus | internal/controller/langfuseproject_controller.go:69-72 | on success only the status of that one project changes; on failure nothing changes |
| Resources.Store.UpdateApiKeyStatus | internal/controller/langfuseapikey_controller.go:119-121 | the same for an API key |
| Resources.Store.UpdatePromptStatus | internal/controller/langfuseprompt_controller.go:95-97 | the same for a prompt |
| Resources.Store.UpdateScoreConfigStatus | internal/controller/langfusescoreconfig_controller.go:94-96 | the same for a score config |
| Resources.Store.UpdateModelStatus | internal/controller/langfusemodel_controller.go:98-100 | the same for a model |
| Resources.Store.CreateSecret | internal/controller/langfuseapikey_controller.go:102-107 | a scripted fault is returned as it is; otherwise a taken name is "already exists"; otherwise the secret is stored under that name; on any error the stored secrets are unchanged |
| ProjectController.LangfuseProjectReconciler.Reconcile | internal/controller/langfuseproject_controller.go:51-85 | a missing project is `Done` and a failed fetch returns its error, both with no call and no write; an assigned ID gives `Done`, no call and no write; otherwise exactly one create call is made, with the spec's name; a failed create writes state "Error" (ID left empty) and returns the create error, or the write error if the write fails; a successful create writes the returned ID and "Ready"; conditions and specs are never changed, an assigned ID is never changed and the outcome is never `Requeue` |
| ApiKeyController.ProjectKey | internal/controller/langfuseapikey_controller.go:69 | the parent project is looked up in the request's namespace under the spec's project reference (no ensures of its own) |
| ApiKeyController.SecretKey | internal/controller/langfuseapikey_controller.go:89-90 | the secret is named by the spec's secret name, in the API key object's namespace (no ensures of its own) |
| ApiKeyController.KeySecret | internal/controller/langfuseapikey_controller.go:87-100 | the secret holds exactly LANGFUSE_PUBLIC_KEY, LANGFUSE_SECRET_KEY and LANGFUSE_HOST, set to the returned keys and the client's base URL, and is controlled by the API key object |
| ApiKeyController.LangfuseApiKeyReconciler.Reconcile | internal/controller/langfuseapikey_controller.go:55-124 | a failed fetch or a True first condition touches nothing; a failed project fetch returns its error and an empty project ID requeues, both without a call; the call creates a key for the project's ID with the spec's name; a failed call writes nothing; a controller-reference failure writes nothing; a taken secret name is not an error, while any other create error (a fault, even with the name taken) is returned without a status write; otherwise the conditions become exactly the one Available condition |
| LangfuseTypes.StringMapJson | internal/controller/langfuseprompt_controller.go:81 | a nil map is null; otherwise an object with the same keys, each value as a JSON string |
| LangfuseTypes.StringListJson | internal/controller/langfuseprompt_controller.go:82 | a nil slice is null; otherwise an array of the strings in order |
| LangfuseTypes.IntJson | internal/controller/langfusescoreconfig_controller.go:79-80 | a nil bound is null; otherwise that integer |
| PromptController.PromptPayload | internal/controller/langfuseprompt_controller.go:77-83 | the payload has exactly the keys name, prompt, type, config and labels, each carrying the matching spec field |
| PromptController.PromptPayloadInjective | internal/controller/langfuseprompt_controller.go:77-83 | equal payloads come from specs that agree on every field but the project reference, so nothing is lost |
| PromptController.LangfusePromptReconciler.Reconcile | internal/controller/langfuseprompt_controller.go:54-100 | the gates and dependency wait as for API keys; one call posts the payload to the project's prompts; a failed call is returned with no status write; otherwise the conditions become exactly the one Available condition, and a write failure is returned |
| ScoreConfigController.ScoreConfigPayload | internal/controller/langfusescoreconfig_controller.go:76-82 | the payload has exactly the keys name, dataType, minValue, maxValue and categories; an unset bound or category list is null |
| ScoreConfigController.ScoreConfigPayloadInjective | internal/controller/langfusescoreconfig_controller.go:76-82 | equal payloads come from specs that agree on every field but the project reference |
| ScoreConfigController.LangfuseScoreConfigReconciler.Reconcile | internal/controller/langfusescoreconfig_controller.go:53-99 | the same flow as prompts, posting to the project's score configs |
| ModelController.PriceAsWritten | internal/controller/langfusemodel_controller.go:65-67 | the price is the parsed value, whatever error came with it (no ensures of its own; its effect is stated by the lemmas below) |
| ModelController.Price | internal/controller/langfusemodel_controller.go:65-67 | the corrected price: always finite; the parsed value when it parsed without error and is finite, and 0 otherwise |
| ModelController.ToModelAsWritten | internal/controller/langfusemodel_controller.go:65-79 | the model the source builds: `ToModelWith` applied to the parsed values (no ensures of its own) |
| ModelController.ToModel | internal/controller/langfusemodel_controller.go:65-79 | the corrected model: `ToModelWith` applied to `Price` of the parsed values (no ensures of its own) |
| ModelController.ToModelWith | internal/controller/langfusemodel_controller.go:69-79 | the sent model has an empty ID and copies model name, match pattern, start date, unit, tokenizer ID and tokenizer config verbatim; each price is the given mapping of its string |
| ModelController.MalformedPriceIsZero | internal/controller/langfusemodel_controller.go:65-67 | an empty or malformed price does not abort the reconcile; it is sent as 0, with and without the correction |
| ModelController.OverflowingPriceSendsEmptyBody | internal/controller/langfusemodel_controller.go:65-67 | as written, the price "1e400" becomes +Inf and the create call goes out with an empty body |
| ModelController.NonFinitePriceSendsEmptyBody | internal/controller/langfusemodel_controller.go:65-67 | as written, the price "NaN" or "Inf" parses without error and the body is empty just the same |
| ModelController.CorrectedModelAlwaysMarshals | internal/langfuse/client.go:87-89 | with the corrected price mapping, every spec gives a model that marshals, so the create call always carries a JSON body |
| ModelController.CorrectionKeepsMarshallableModels | internal/controller/langfusemodel_controller.go:65-79 | whenever the source's own model marshals, the corrected model is the same model |
| ModelController.LangfuseModelReconciler.Reconcile | internal/controller/langfusemodel_controller.go:53-103 | a failed fetch or a True first condition touches nothing; with no dependency, an ungated model always gets exactly one create call, carrying the model its spec describes with the prices as `strconv.ParseFloat` returns them, errors dropped (so a non-finite price gives an empty body); a failed call is returned with no status write; otherwise exactly the one Available condition is written |
| ModelController.LangfuseModelReconciler.Reconciled | internal/controller/langfusemodel_controller.go:53-103 | the state one reconcile leaves behind, for a given spec-to-model mapping: a failed fetch or a True first condition touches nothing; otherwise exactly one create request carrying the mapped model is logged, a failed call is returned with the models unchanged, and a successful one writes exactly the one Available condition (a predicate; no ensures of its own) |
| ModelController.LangfuseModelReconciler.ReconcileWith | internal/controller/langfusemodel_controller.go:53-103 | the body both model reconciles share, for any spec-to-model mapping; it ensures `Reconciled` |
| ModelController.LangfuseModelReconciler.ReconcileCorrected | internal/controller/langfusemodel_controller.go:53-103 | the same reconcile with the correction of the finding below: the call carries the model with its prices mapped by `Price`, so it always has a JSON body |
| LangfuseTypes.MarshalModel | internal/langfuse/types.go:26-37 | marshalling fails exactly when one of the three prices is infinite or NaN |
| LangfuseTypes.MarshalModelRequired | internal/langfuse/types.go:26-37 | a marshalled model always has id, modelName, matchPattern and unit, each carrying its field |
| LangfuseTypes.MarshalModelPrices | internal/langfuse/types.go:32-34 | a price member is present exactly when that price is not 0, and then carries that price |
| LangfuseTypes.MarshalModelOptionalValues | internal/langfuse/types.go:30-36 | a present startDate, tokenizerId or tokenizerConfig member carries its field |
| LangfuseTypes.MarshalModelKeys | internal/langfuse/types.go:26-37 | a marshalled model has no member but the ten tagged fields |
| LangfuseTypes.CreateProjectBody | internal/langfuse/types.go:17-19 | the body has exactly the member "name", carrying the name |
| LangfuseTypes.CreateApiKeyBody | internal/langfuse/types.go:21-24 | the body has exactly the members "name" and "projectId", carrying the name and the project ID |
| LangfuseTypes.MarshalModelOptionalStrings | internal/langfuse/types.go:30-36 | startDate, tokenizerId and tokenizerConfig are present exactly when they are not empty |
| LangfuseClient.Getenv | internal/langfuse/client.go:21-26 | `os.Getenv`: the variable's value, or "" when it is unset (no ensures of its own) |
| LangfuseClient.NewConfig | internal/langfuse/client.go:20-34 | an empty or unset LANGFUSE_HOST gives https://cloud.langfuse.com, a set one is taken as it is; the base URL is never empty; both keys are taken verbatim |
| LangfuseClient.NewClient | internal/langfuse/client.go:20-34 | a fresh client with that configuration and nothing sent yet |
| LangfuseClient.SentHeaderCarriesCredentials | internal/langfuse/client.go:36-40 | a sent request has exactly two headers: the JSON content type, and one Authorization value that decodes back to (public key, secret key) |
| LangfuseClient.HttpRequest.constructor | internal/langfuse/client.go:61 | `http.NewRequest`: a request with the given verb, URL and body and no headers yet |
| LangfuseClient.SentHeader | internal/langfuse/client.go:38-40 | the header every request leaves with: exactly Authorization and Content-Type, each with one value (no ensures of its own; see `SentHeaderCarriesCredentials`) |
| LangfuseClient.Authorization | internal/langfuse/client.go:38-39 | the Authorization value: `BasicAuth.Credentials` of the public and the secret key (no ensures of its own; its decoding is stated by `SentHeaderCarriesCredentials`) |
| LangfuseClient.HttpRequest.Set | internal/langfuse/client.go:39-40 | the key now holds exactly the one value, and other keys are unchanged |
| LangfuseClient.StatusError | internal/langfuse/client.go:42-51 | a transport error is returned unchanged; an HTTP answer is an error exactly when its status is 400 or more, and the error reads "API error: <status>: <body>" |
| LangfuseClient.DoResult | internal/langfuse/client.go:42-56 | success exactly when there is no status error and the body decodes (if there is a target); a nil target decodes nothing; a decode failure is the error otherwise |
| LangfuseClient.Client.Do | internal/langfuse/client.go:36-57 | both headers are set on the request, the request is sent exactly once, and the result is `DoResult` of the answer |
| LangfuseClient.Client.Exchange | internal/langfuse/client.go:59-93 | the shared body of the decoding calls: one request built with `http.NewRequest` and sent by `do`; the result is the decoded value exactly when `DoResult` succeeds, and its error otherwise |
| LangfuseClient.Client.Send | internal/langfuse/client.go:97-115 | the shared body of the calls with a nil target: one POST sent by `do`, and the error is exactly the status error |
| LangfuseClient.Client.CreateProject | internal/langfuse/client.go:59-66 | one POST to base + /api/public/projects carrying {name}, then the decoded project or the error |
| LangfuseClient.Client.GetProject | internal/langfuse/client.go:68-73 | one GET of base + /api/public/projects/<id> with no body |
| LangfuseClient.Client.CreateApiKey | internal/langfuse/client.go:75-84 | one POST to .../projects/<id>/apiKeys carrying {name, projectId} |
| LangfuseClient.Client.CreateModel | internal/langfuse/client.go:87-93 | one POST to base + /api/public/models carrying the marshalled model, or an empty body when marshalling fails |
| LangfuseClient.Client.CreateLlmConnection | internal/langfuse/client.go:97-101 | one POST to .../projects/<id>/llm-connections; nothing is decoded and the error is the status error |
| LangfuseClient.Client.CreatePrompt | internal/langfuse/client.go:104-108 | one POST to .../projects/<id>/prompts; nothing is decoded and the error is the status error |
| LangfuseClient.Client.CreateScoreConfig | internal/langfuse/client.go:111-115 | one POST to .../projects/<id>/score-configs; nothing is decoded and the error is the status error |
| LangfuseClient.ProjectUrl | internal/langfuse/client.go:69 | base + /api/public/projects/ + the ID (no ensures of its own) |
| LangfuseClient.ProjectScopedUrl | internal/langfuse/client.go:79-113 | base + /api/public/projects/ + the ID + the collection's suffix (no ensures of its own; see the two URL lemmas below) |
| LangfuseClient.CreateProjectRequest | internal/langfuse/client.go:59-61 | the request `CreateProject` sends: POST, the projects URL, the two headers, `CreateProjectBody` (no ensures of its own) |
| LangfuseClient.GetProjectRequest | internal/langfuse/client.go:68-69 | the request `GetProject` sends: GET, `ProjectUrl`, the two headers, no body (no ensures of its own) |
| LangfuseClient.CreateApiKeyRequest | internal/langfuse/client.go:75-79 | the request `CreateAPIKey` sends: POST, the project's apiKeys URL, the two headers, `CreateApiKeyBody` (no ensures of its own) |
| LangfuseClient.CreateModelRequest | internal/langfuse/client.go:87-89 | the request `CreateModel` sends: POST, the models URL, the two headers, `ModelBody` (no ensures of its own) |
| LangfuseClient.CreateInProjectRequest | internal/langfuse/client.go:97-113 | the request the three project-scoped posts send: POST, `ProjectScopedUrl`, the two headers, the document (no ensures of its own) |
| LangfuseClient.ModelBody | internal/langfuse/client.go:88-89 | the body is empty exactly when a price is not finite |
| LangfuseClient.ProjectScopedUrlInjective | internal/langfuse/client.go:75-115 | for slash-free project IDs, two project-scoped calls share a URL only when they target the same collection of the same project |
| LangfuseClient.ProjectUrlNotScoped | internal/langfuse/client.go:68-79 | `GetProject` on a slash-free ID never reaches a collection URL |
| Base64.Encode | internal/langfuse/client.go:38 | `base64.StdEncoding.EncodeToString`: the padded alphabet of section 4 of RFC 4648 (no ensures of its own; see the lemmas below) |
| Base64.EncodedLength | internal/langfuse/client.go:38 | standard Base64 turns n bytes into 4 * ceil(n / 3) characters |
| Base64.DecodeEncode | internal/langfuse/client.go:38 | decoding the encoding gives back the bytes |
| Base64.EncodeDecode | internal/langfuse/client.go:38 | every string that decodes is the canonical encoding of what it decodes to |
| Base64.SymbolsPadOnlyAtEnd | internal/langfuse/client.go:38 | padding appears only in the last group |
| Utf8.Encode | internal/langfuse/client.go:38 | `[]byte(s)`: the UTF-8 bytes of each character in turn (no ensures of its own; see the lemmas below) |
| Utf8.EncodeChar | internal/langfuse/client.go:38 | a character takes 1 to 4 bytes, and a single byte exactly for ASCII |
| Utf8.DecodeEncode | internal/langfuse/client.go:38 | decoding the UTF-8 bytes of a string gives back the string |
| Utf8.EncodeDecode | internal/langfuse/client.go:38 | every byte sequence that decodes is the encoding of what it decodes to |
| BasicAuth.Credentials | internal/langfuse/client.go:38-39 | "Basic " + the Base64 of the UTF-8 of user-id ":" password (no ensures of its own; see `ParseCredentials`) |
| BasicAuth.SplitAtColon | internal/langfuse/client.go:38 | a user-pass string splits exactly when it has a colon |
| BasicAuth.ParseCredentials | internal/langfuse/client.go:38-39 | a server parsing the Authorization value recovers (user-id, password) whenever the user-id has no colon |
| BasicAuth.ColonInUserIdIsAmbiguous | internal/langfuse/client.go:38 | with a colon in the public key, two different key pairs send the same header |
| LangfuseTypes.IsParseFloat | internal/controller/langfusemodel_controller.go:65-67 | what the model relies on about `strconv.ParseFloat`: a syntax error gives 0, a range error an infinity, "" is a syntax error, "NaN" and "Inf" parse without error and "1e400" overflows (a predicate; no ensures of its own) |
| Scenarios.SampleParseIsParseFloat | internal/controller/langfusemodel_controller.go:65-67 | the assumptions made about `strconv.ParseFloat` can all be met at once |
| Scenarios.ProjectCreated | internal/controller/langfuseproject_controller.go:76-84 | project "proj-a" answered with "prj_123" ends with ID "prj_123", state "Ready" and `Done` |
| Scenarios.ApiKeyCreated | internal/controller/langfuseapikey_controller.go:87-123 | key "key-a" of a ready project yields secret "sec-a" with the returned keys and the default host, owned by the key object, and one Available condition |
| Scenarios.ApiKeySecretCreateFails | internal/controller/langfuseapikey_controller.go:102-105 | with secret "sec-a" already stored, a create that fails on the way ("connection refused") is returned as the error; the stored secret is kept and no condition is written |
| Scenarios.PromptBeforeProject | internal/controller/langfuseprompt_controller.go:66-70 | a prompt whose project is missing fails with "not found" and keeps its status |
| Scenarios.ModelWithOverflowingPrice | internal/controller/langfusemodel_controller.go:65-86 | as written: "1e400" parses to +Inf, the one request sent is a POST with an empty body, the 400 answer is returned as the error, and the status stays empty |
| Scenarios.ModelWithOverflowingPriceCorrected | internal/controller/langfusemodel_controller.go:65-102 | under the correction: the one request logged is a POST whose JSON body leaves out the overflowing input price (sent as 0) and keeps the output price 0.5, and the reconcile is `Done` |
| Scenarios.ProjectReconcileIsIdempotent | internal/controller/langfuseproject_controller.go:59-63 | after a successful create, a second reconcile is `Done`; over both runs the log grows by exactly the one create request, and the projects map is the old one with only this project's ID and state changed |
| Scenarios.ApiKeyReconcileIsIdempotent | internal/controller/langfuseapikey_controller.go:63-65 | after a successful run, a second reconcile is `Done`; over both runs the log grows by exactly the one create request, the key's conditions are exactly the one Available condition, and the secrets map gains only the new secret (or is unchanged if the name was taken) |
| Scenarios.PromptReconcileIsIdempotent | internal/controller/langfuseprompt_controller.go:62-64 | the same for a prompt: one create request over both runs, and the prompts map changes only in this prompt's conditions |
| Scenarios.ScoreConfigReconcileIsIdempotent | internal/controller/langfusescoreconfig_controller.go:61-63 | the same for a score config |
| Scenarios.ModelReconcileIsIdempotent | internal/controller/langfusemodel_controller.go:61-63 | the same for a model, the one request carrying the model as the source builds it |

## Left out

- The HTTP transport, reading and closing the body, and the JSON decoder are outside the model. Each call is given the server's answer, and the decoded value or the decoder's error, as parameters.
- JSON documents are modelled as values, not bytes. Member order and the textual form of numbers are not modelled.
- The error `http.NewRequest` returns is discarded by the source, which is not modelled. With a malformed base URL the request would be nil and `do` would panic.
- `http.Header` canonicalises key spelling. Header keys are plain strings here.
- Kubernetes client machinery is modelled by its observable effect only. This covers `Get`, `Create`, `Status().Update` and `SetControllerReference`. Fetches leave no trace, so "no project fetch once gated" holds in the source but is not visible in the model.
- Optimistic concurrency (resource versions) and the status subresource's own validation are folded into the scripted write fault.
- `SetupWithManager`, logging and the RBAC markers are left out. Each reconcile is one sequential call, so concurrency between reconciles is not modelled.
- Integers are unbounded. The `*int` bounds of a score config are not limited to Go's 64 bits.
- float64 rounding and the digit syntax of `strconv.ParseFloat` are not modelled. The parser is a parameter, and `IsParseFloat` states what the model relies on about it: a syntax error gives 0, a range error gives an infinity, and "NaN", "Inf" and "1e400" behave as they do in Go.
- `metav1.Now()` is the `now` parameter each reconcile receives.
- The `LangfuseLLMConnection` kind has no controller in this model. Its type file is context only. The client's `CreateLlmConnection` is modelled.
- api/v1alpha1/langfuseapikey_types.go is not part of this model. The API key spec's fields (project reference, name, secret name) are those the controller reads.
- LangfuseTypes.MarshalModel: its own contract states only when marshalling fails. The lemmas beside it state which members are present, what each carries, and that no other member is present.
- A Go string is a sequence of bytes, while a Dafny `string` is a sequence of characters. Keys read by `os.Getenv` that are not valid UTF-8 cannot be represented, so the model does not cover them.

## Findings

| source | as written | input that shows it | evidently intended | confidence | as-written member | corrected member |
|---|---|---|---|---|---|---|
| internal/controller/langfusemodel_controller.go:65-67 | the price's parse error is dropped and its value is used, so an out-of-range or non-finite price becomes ±Inf or NaN; `json.Marshal` then fails, that error is dropped too (internal/langfuse/client.go:88), and the model is posted with an empty body | a model whose input price is "1e400" (or whose total price is "NaN" or "Inf") | a price that is not a finite number is sent as 0, like every other unparsable price, so the request always carries the model | not executed | ModelController.OverflowingPriceSendsEmptyBody | ModelController.CorrectedModelAlwaysMarshals |
