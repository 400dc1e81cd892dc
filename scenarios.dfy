/** Runs of the reconcilers on concrete clusters: a project and then its
    API key being created, a prompt whose project is missing, a model with
    an overflowing price (as the source handles it and as corrected), and
    the fact that a second reconcile after a successful one neither calls
    Langfuse nor writes anything. */
module Scenarios {
  import opened Wrappers
  import opened Errors
  import opened Resources
  import opened LangfuseTypes
  import opened LangfuseClient
  import ProjectController
  import ApiKeyController
  import PromptController
  import ScoreConfigController
  import ModelController

  const Namespace: string := "default"
  const Created: Response := HttpResponse(200, "200 OK", "{}")
  const BadRequest: Response := HttpResponse(400, "400 Bad Request", "invalid body")

  /** What the client makes of a 400 answer. */
  lemma BadRequestError()
    ensures StatusError(BadRequest) == Some(Api("API error: 400 Bad Request: invalid body"))
  {
    assert "API error: " + "400 Bad Request" + ": " + "invalid body" == "API error: 400 Bad Request: invalid body";
  }

  /** A stand-in for `strconv.ParseFloat` on a handful of strings. */
  function SampleParse(s: string): Parsed {
    if s == "NaN" then Parsed(NaN, NoError)
    else if s == "Inf" then Parsed(PosInf, NoError)
    else if s == "1e400" then Parsed(PosInf, ErrRange)
    else if s == "0.5" then Parsed(Finite(0.5), NoError)
    else Parsed(Finite(0.0), ErrSyntax)
  }

  /** The assumptions made about `strconv.ParseFloat` can be met. */
  lemma SampleParseIsParseFloat()
    ensures IsParseFloat(SampleParse)
  {
  }

  /** Project "proj-a" is created in Langfuse, which answers with the ID
      "prj_123"; the ID and the state "Ready" are written back. */
  method ProjectCreated() returns (o: Outcome, status: ProjectStatus)
    ensures o == Done
    ensures status == ProjectStatus("prj_123", "Ready", [])
  {
    var store := new Store();
    var langfuse := NewClient(map[PublicKeyVariable := "pk-admin", SecretKeyVariable := "sk-admin"]);
    var key := NamespacedName(Namespace, "proj-a");
    store.projects := map[key := LangfuseProject(ProjectSpec("proj-a"), ProjectStatus("", "", []))];
    var projects := new ProjectController.LangfuseProjectReconciler(store, langfuse);
    o := projects.Reconcile(key, None, Created, Success(Project("prj_123", "proj-a")), None);
    status := store.projects[key].status;
  }

  /** Then API key "key-a" of "proj-a" is created for "prj_123"; its
      credentials land in secret "sec-a", which the API key object owns,
      and the key becomes Available. */
  method ApiKeyCreated() returns (o: Outcome, secret: Secret, status: ConditionStatusBlock)
    ensures o == Done
    ensures secret.stringData == map[
      ApiKeyController.PublicKeyEntry := "pk-lf-1",
      ApiKeyController.SecretKeyEntry := "sk-lf-1",
      ApiKeyController.HostEntry := DefaultBaseUrl]
    ensures secret.owners == [OwnerReference("LangfuseAPIKey", "key-a", true)]
    ensures status.conditions == [Condition("Available", ConditionTrue, "Created", "API Key created successfully", 1000)]
  {
    var store := new Store();
    var langfuse := NewClient(map[]);
    store.projects := map[NamespacedName(Namespace, "proj-a") :=
      LangfuseProject(ProjectSpec("proj-a"), ProjectStatus("prj_123", "Ready", []))];
    var key := NamespacedName(Namespace, "key-a");
    store.apiKeys := map[key := LangfuseApiKey(ApiKeySpec("proj-a", "key-a", "sec-a"), ConditionStatusBlock([]))];
    var keys := new ApiKeyController.LangfuseApiKeyReconciler(store, langfuse);
    o := keys.Reconcile(key, None, None, Created,
                        Success(ApiKey("key_1", "pk-lf-1", "sk-lf-1", "key-a", "prj_123")),
                        None, None, None, 1000);
    secret := store.secrets[NamespacedName(Namespace, "sec-a")];
    status := store.apiKeys[key].status;
  }

  /** The secret name "sec-a" is taken and the create of the secret fails
      on the way (the API server is unreachable): that error is returned,
      the stored secret is kept and no condition is written. */
  method ApiKeySecretCreateFails() returns (o: Outcome, secret: Secret, status: ConditionStatusBlock)
    ensures o == Fail(Transport("connection refused"))
    ensures secret == Secret(map[], [])
    ensures status == ConditionStatusBlock([])
  {
    var store := new Store();
    var langfuse := NewClient(map[]);
    store.projects := map[NamespacedName(Namespace, "proj-a") :=
      LangfuseProject(ProjectSpec("proj-a"), ProjectStatus("prj_123", "Ready", []))];
    store.secrets := map[NamespacedName(Namespace, "sec-a") := Secret(map[], [])];
    var key := NamespacedName(Namespace, "key-a");
    store.apiKeys := map[key := LangfuseApiKey(ApiKeySpec("proj-a", "key-a", "sec-a"), ConditionStatusBlock([]))];
    var keys := new ApiKeyController.LangfuseApiKeyReconciler(store, langfuse);
    o := keys.Reconcile(key, None, None, Created,
                        Success(ApiKey("key_1", "pk-lf-1", "sk-lf-1", "key-a", "prj_123")),
                        None, Some(Transport("connection refused")), None, 1000);
    secret := store.secrets[NamespacedName(Namespace, "sec-a")];
    status := store.apiKeys[key].status;
  }

  /** A prompt whose project does not exist yet: the "not found" is
      returned (so the prompt is retried later), nothing is sent and its
      status stays as it was. */
  method PromptBeforeProject() returns (o: Outcome, status: ConditionStatusBlock)
    ensures o == Fail(NotFound)
    ensures status == ConditionStatusBlock([])
  {
    var store := new Store();
    var langfuse := NewClient(map[]);
    var key := NamespacedName(Namespace, "greeting");
    store.prompts := map[key := LangfusePrompt(
      PromptSpec("missing-proj", "greeting", "Hello {{name}}", "text", None, None), ConditionStatusBlock([]))];
    var prompts := new PromptController.LangfusePromptReconciler(store, langfuse);
    o := prompts.Reconcile(key, None, None, Created, None, 1000);
    assert langfuse.log == [];
    status := store.prompts[key].status;
  }

  /** A model whose input price overflows, as the source handles it:
      `strconv.ParseFloat` answers +Inf with a range error, which is
      dropped, so `json.Marshal` fails and the create call goes out with an
      empty body. Langfuse refuses it and the status stays as it was. */
  method ModelWithOverflowingPrice() returns (o: Outcome, status: ConditionStatusBlock, ghost sent: seq<Request>)
    ensures SampleParse("1e400").value == PosInf
    ensures |sent| == 1 && sent[0].verb == Post && sent[0].body == EmptyBody
    ensures o == Fail(Api("API error: 400 Bad Request: invalid body"))
    ensures status == ConditionStatusBlock([])
  {
    var spec := ModelSpec("gpt-x", "(?i)^gpt-x$", "", "TOKENS", "1e400", "0.5", "", "", "");
    var store := new Store();
    var langfuse := NewClient(map[]);
    var key := NamespacedName(Namespace, "gpt-x");
    store.models := map[key := LangfuseModel(spec, ConditionStatusBlock([]))];
    var models := new ModelController.LangfuseModelReconciler(store, langfuse);
    var lfModel := ModelController.ToModelAsWritten(spec, SampleParse);
    assert lfModel.inputPrice == ModelController.PriceAsWritten(SampleParse("1e400")) == PosInf;
    assert ModelBody(lfModel) == EmptyBody;
    BadRequestError();
    o := models.Reconcile(key, None, SampleParse, BadRequest, Failure("unexpected end of JSON input"), None, 1000);
    status := store.models[key].status;
    sent := langfuse.log;
  }

  /** The same model under the fix of `ReconcileCorrected`: the overflowing
      price is sent as 0, which the marshalled body leaves out, the other
      price is kept, the model is created and becomes Available. */
  method ModelWithOverflowingPriceCorrected() returns (o: Outcome, sent: Model, body: Body, ghost log: seq<Request>)
    ensures |log| == 1 && log[0].verb == Post && log[0].body == body
    ensures sent.inputPrice == Finite(0.0) && sent.outputPrice == Finite(0.5) && sent.totalPrice == Finite(0.0)
    ensures body.JsonBody? && body.doc.JObject?
    ensures "inputPrice" !in body.doc.members
    ensures "outputPrice" in body.doc.members && body.doc.members["outputPrice"] == JNumber(0.5)
    ensures o == Done
  {
    var spec := ModelSpec("gpt-x", "(?i)^gpt-x$", "", "TOKENS", "1e400", "0.5", "", "", "");
    var store := new Store();
    var langfuse := NewClient(map[]);
    var key := NamespacedName(Namespace, "gpt-x");
    store.models := map[key := LangfuseModel(spec, ConditionStatusBlock([]))];
    var models := new ModelController.LangfuseModelReconciler(store, langfuse);
    sent := ModelController.ToModel(spec, SampleParse);
    assert sent.inputPrice == ModelController.Price(SampleParse("1e400"));
    assert sent.outputPrice == ModelController.Price(SampleParse("0.5"));
    assert sent.totalPrice == ModelController.Price(SampleParse(""));
    MarshalModelPrices(sent);
    body := ModelBody(sent);
    o := models.ReconcileCorrected(key, None, SampleParse, Created, Success(sent), None, 1000);
    log := langfuse.log;
  }
  /** A project reconciled twice: the second run finds the ID and sends
      nothing, whatever the server would have answered. */
  method ProjectReconcileIsIdempotent(r: ProjectController.LangfuseProjectReconciler, req: NamespacedName,
                                      resp: Response, decoded: Result<Project, string>, again: Response)
      returns (first: Outcome, second: Outcome)
    requires req in r.store.projects && r.store.projects[req].status.id == ""
    requires DoResult(resp, DecodeInto(decoded)).Success? && decoded.value.id != ""
    modifies r.store`projects, r.langfuse`log
    ensures first == Done && second == Done
    ensures r.langfuse.log == old(r.langfuse.log) + [CreateProjectRequest(r.langfuse.config, old(r.store.projects[req].spec.name))]
    ensures r.store.projects == old(r.store.projects)[req := old(r.store.projects[req]).(status :=
      old(r.store.projects[req].status).(id := decoded.value.id, state := ProjectController.StateReady))]
  {
    first := r.Reconcile(req, None, resp, decoded, None);
    second := r.Reconcile(req, None, again, Success(Project("", "")), None);
  }

  /** An API key reconciled twice: once the Available condition is written,
      the second run stops at the gate. */
  method ApiKeyReconcileIsIdempotent(r: ApiKeyController.LangfuseApiKeyReconciler, req: NamespacedName,
                                     resp: Response, decoded: Result<ApiKey, string>, again: Response, now: int)
      returns (first: Outcome, second: Outcome)
    requires req in r.store.apiKeys && !FirstConditionTrue(r.store.apiKeys[req].status.conditions)
    requires ApiKeyController.ProjectKey(req, r.store.apiKeys[req].spec) in r.store.projects
    requires r.store.projects[ApiKeyController.ProjectKey(req, r.store.apiKeys[req].spec)].status.id != ""
    requires DoResult(resp, DecodeInto(decoded)).Success?
    modifies r.store`apiKeys, r.store`secrets, r.langfuse`log
    ensures first == Done && second == Done
    ensures var spec := old(r.store.apiKeys[req].spec);
      r.langfuse.log == old(r.langfuse.log)
        + [CreateApiKeyRequest(r.langfuse.config, old(r.store.projects[ApiKeyController.ProjectKey(req, spec)].status.id), spec.name)]
    ensures r.store.apiKeys == old(r.store.apiKeys)[req := old(r.store.apiKeys[req]).(status :=
      ConditionStatusBlock([AvailableCondition(ApiKeyController.CreatedMessage, now)]))]
    ensures var sk := ApiKeyController.SecretKey(req, old(r.store.apiKeys[req].spec));
      r.store.secrets == if sk in old(r.store.secrets) then old(r.store.secrets)
                         else old(r.store.secrets)[sk := ApiKeyController.KeySecret(req, decoded.value, r.langfuse.config.baseUrl)]
  {
    first := r.Reconcile(req, None, None, resp, decoded, None, None, None, now);
    second := r.Reconcile(req, None, None, again, decoded, None, None, None, now);
  }

  /** A prompt reconciled twice: the second run stops at the gate. */
  method PromptReconcileIsIdempotent(r: PromptController.LangfusePromptReconciler, req: NamespacedName,
                                     resp: Response, again: Response, now: int)
      returns (first: Outcome, second: Outcome)
    requires req in r.store.prompts && !FirstConditionTrue(r.store.prompts[req].status.conditions)
    requires NamespacedName(req.namespace, r.store.prompts[req].spec.projectRef) in r.store.projects
    requires r.store.projects[NamespacedName(req.namespace, r.store.prompts[req].spec.projectRef)].status.id != ""
    requires StatusError(resp).None?
    modifies r.store`prompts, r.langfuse`log
    ensures first == Done && second == Done
    ensures var spec := old(r.store.prompts[req].spec);
      r.langfuse.log == old(r.langfuse.log)
        + [CreateInProjectRequest(r.langfuse.config, old(r.store.projects[NamespacedName(req.namespace, spec.projectRef)].status.id),
                                  Prompts, PromptController.PromptPayload(spec))]
    ensures r.store.prompts == old(r.store.prompts)[req := old(r.store.prompts[req]).(status :=
      ConditionStatusBlock([AvailableCondition(PromptController.CreatedMessage, now)]))]
  {
    first := r.Reconcile(req, None, None, resp, None, now);
    second := r.Reconcile(req, None, None, again, None, now);
  }

  /** A score config reconciled twice: the second run stops at the gate. */
  method ScoreConfigReconcileIsIdempotent(r: ScoreConfigController.LangfuseScoreConfigReconciler, req: NamespacedName,
                                          resp: Response, again: Response, now: int)
      returns (first: Outcome, second: Outcome)
    requires req in r.store.scoreConfigs && !FirstConditionTrue(r.store.scoreConfigs[req].status.conditions)
    requires NamespacedName(req.namespace, r.store.scoreConfigs[req].spec.projectRef) in r.store.projects
    requires r.store.projects[NamespacedName(req.namespace, r.store.scoreConfigs[req].spec.projectRef)].status.id != ""
    requires StatusError(resp).None?
    modifies r.store`scoreConfigs, r.langfuse`log
    ensures first == Done && second == Done
    ensures var spec := old(r.store.scoreConfigs[req].spec);
      r.langfuse.log == old(r.langfuse.log)
        + [CreateInProjectRequest(r.langfuse.config, old(r.store.projects[NamespacedName(req.namespace, spec.projectRef)].status.id),
                                  ScoreConfigs, ScoreConfigController.ScoreConfigPayload(spec))]
    ensures r.store.scoreConfigs == old(r.store.scoreConfigs)[req := old(r.store.scoreConfigs[req]).(status :=
      ConditionStatusBlock([AvailableCondition(ScoreConfigController.CreatedMessage, now)]))]
  {
    first := r.Reconcile(req, None, None, resp, None, now);
    second := r.Reconcile(req, None, None, again, None, now);
  }

  /** A model reconciled twice: the second run stops at the gate. */
  method ModelReconcileIsIdempotent(r: ModelController.LangfuseModelReconciler, req: NamespacedName,
                                    parse: string -> Parsed, resp: Response, decoded: Result<Model, string>,
                                    again: Response, now: int)
      returns (first: Outcome, second: Outcome)
    requires req in r.store.models && !FirstConditionTrue(r.store.models[req].status.conditions)
    requires DoResult(resp, DecodeInto(decoded)).Success?
    modifies r.store`models, r.langfuse`log
    ensures first == Done && second == Done
    ensures r.langfuse.log == old(r.langfuse.log)
      + [CreateModelRequest(r.langfuse.config, ModelController.ToModelAsWritten(old(r.store.models[req].spec), parse))]
    ensures r.store.models == old(r.store.models)[req := old(r.store.models[req]).(status :=
      ConditionStatusBlock([AvailableCondition(ModelController.CreatedMessage, now)]))]
  {
    first := r.Reconcile(req, None, parse, resp, decoded, None, now);
    second := r.Reconcile(req, None, parse, again, decoded, None, now);
  }
}
