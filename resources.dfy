/** The custom resources the controllers reconcile (api/v1alpha1), the
    core/v1 Secret the API key controller writes, and the part of the
    Kubernetes API the controllers use: `Get`, `Create` and
    `Status().Update`.

    The API server is a `Store` holding one map per kind, keyed by
    namespace and name. "Not found" on a fetch and "already exists" on a
    create follow from what the maps hold; every other failure (an
    unreachable server, a conflict, a refused write) is given to the
    operation as a scripted fault. */
module Resources {
  import opened Wrappers
  import opened Errors

  datatype NamespacedName = NamespacedName(namespace: string, name: string)

  /** `metav1.ConditionStatus`. */
  datatype ConditionStatus = ConditionTrue | ConditionFalse | ConditionUnknown

  /** `metav1.Condition`; the transition time is a plain instant. */
  datatype Condition = Condition(
    conditionType: string,
    status: ConditionStatus,
    reason: string,
    message: string,
    lastTransitionTime: int)

  /** The gate of the four condition-carrying controllers: the FIRST
      condition says True. Its type is not looked at. */
  predicate FirstConditionTrue(conditions: seq<Condition>) {
    |conditions| > 0 && conditions[0].status == ConditionTrue
  }

  /** The one condition a successful reconcile leaves behind. */
  function AvailableCondition(message: string, now: int): (c: Condition)
    ensures FirstConditionTrue([c])
  {
    Condition("Available", ConditionTrue, "Created", message, now)
  }

  /** A Go slice or map field that may be nil. */
  type Nilable<T> = Option<T>

  datatype ProjectSpec = ProjectSpec(name: string)
  datatype ProjectStatus = ProjectStatus(id: string, state: string, conditions: seq<Condition>)
  datatype LangfuseProject = LangfuseProject(spec: ProjectSpec, status: ProjectStatus)

  /** The status of the four kinds that only carry conditions. */
  datatype ConditionStatusBlock = ConditionStatusBlock(conditions: seq<Condition>)

  datatype ApiKeySpec = ApiKeySpec(projectRef: string, name: string, secretName: string)
  datatype LangfuseApiKey = LangfuseApiKey(spec: ApiKeySpec, status: ConditionStatusBlock)

  datatype PromptSpec = PromptSpec(
    projectRef: string,
    name: string,
    prompt: string,
    promptType: string,
    config: Nilable<map<string, string>>,
    labels: Nilable<seq<string>>)
  datatype LangfusePrompt = LangfusePrompt(spec: PromptSpec, status: ConditionStatusBlock)

  datatype ScoreConfigSpec = ScoreConfigSpec(
    projectRef: string,
    name: string,
    dataType: string,
    minValue: Nilable<int>,
    maxValue: Nilable<int>,
    categories: Nilable<seq<string>>)
  datatype LangfuseScoreConfig = LangfuseScoreConfig(spec: ScoreConfigSpec, status: ConditionStatusBlock)

  datatype ModelSpec = ModelSpec(
    modelName: string,
    matchPattern: string,
    startDate: string,
    unit: string,
    inputPrice: string,
    outputPrice: string,
    totalPrice: string,
    tokenizerId: string,
    tokenizerConfig: string)
  datatype LangfuseModel = LangfuseModel(spec: ModelSpec, status: ConditionStatusBlock)

  /** What `Reconcile` returns: `ctrl.Result{}` with no error, the result
      asking for a requeue with no error, or an error (which the manager
      retries with backoff). */
  datatype Outcome = Done | Requeue | Fail(err: Error)

  /** The outcome of returning `ctrl.Result{}` together with `err`. */
  function Returned(err: Option<Error>): (o: Outcome)
    ensures o.Done? <==> err.None?
    ensures err.Some? ==> o == Fail(err.value)
  {
    if err.None? then Done else Fail(err.value)
  }

  /** The controller reference `SetControllerReference` adds to an object. */
  datatype OwnerReference = OwnerReference(kind: string, name: string, controller: bool)

  /** A core/v1 Secret as the API key controller writes it. */
  datatype Secret = Secret(stringData: map<string, string>, owners: seq<OwnerReference>)

  /** `Get`: a scripted fault wins; otherwise the object if present, and
      "not found" if not. */
  function Fetch<R>(objects: map<NamespacedName, R>, key: NamespacedName, fault: Option<Error>): (r: Result<R, Error>)
    ensures r.Success? <==> fault.None? && key in objects
    ensures r.Success? ==> r.value == objects[key]
    ensures fault.None? && key !in objects ==> r == Failure(NotFound)
    ensures fault.Some? ==> r == Failure(fault.value)
  {
    if fault.Some? then Failure(fault.value)
    else if key in objects then Success(objects[key])
    else Failure(NotFound)
  }

  /** A status write: `Status().Update` replaces only the status of the
      stored object, and fails on a missing object or a scripted fault. */
  function StatusWriteError<R>(objects: map<NamespacedName, R>, key: NamespacedName, fault: Option<Error>): (e: Option<Error>)
    ensures e.None? <==> fault.None? && key in objects
  {
    if fault.Some? then fault else if key in objects then None else Some(NotFound)
  }

  class Store {
    var projects: map<NamespacedName, LangfuseProject>
    var apiKeys: map<NamespacedName, LangfuseApiKey>
    var prompts: map<NamespacedName, LangfusePrompt>
    var scoreConfigs: map<NamespacedName, LangfuseScoreConfig>
    var models: map<NamespacedName, LangfuseModel>
    var secrets: map<NamespacedName, Secret>

    constructor ()
      ensures projects == map[] && apiKeys == map[] && prompts == map[]
      ensures scoreConfigs == map[] && models == map[] && secrets == map[]
    {
      projects, apiKeys, prompts := map[], map[], map[];
      scoreConfigs, models, secrets := map[], map[], map[];
    }

    method UpdateProjectStatus(key: NamespacedName, status: ProjectStatus, fault: Option<Error>) returns (err: Option<Error>)
      modifies this`projects
      ensures err == StatusWriteError(old(projects), key, fault)
      ensures err.None? ==> projects == old(projects)[key := old(projects)[key].(status := status)]
      ensures err.Some? ==> projects == old(projects)
    {
      err := StatusWriteError(projects, key, fault);
      if err.None? {
        projects := projects[key := projects[key].(status := status)];
      }
    }

    method UpdateApiKeyStatus(key: NamespacedName, status: ConditionStatusBlock, fault: Option<Error>) returns (err: Option<Error>)
      modifies this`apiKeys
      ensures err == StatusWriteError(old(apiKeys), key, fault)
      ensures err.None? ==> apiKeys == old(apiKeys)[key := old(apiKeys)[key].(status := status)]
      ensures err.Some? ==> apiKeys == old(apiKeys)
    {
      err := StatusWriteError(apiKeys, key, fault);
      if err.None? {
        apiKeys := apiKeys[key := apiKeys[key].(status := status)];
      }
    }

    method UpdatePromptStatus(key: NamespacedName, status: ConditionStatusBlock, fault: Option<Error>) returns (err: Option<Error>)
      modifies this`prompts
      ensures err == StatusWriteError(old(prompts), key, fault)
      ensures err.None? ==> prompts == old(prompts)[key := old(prompts)[key].(status := status)]
      ensures err.Some? ==> prompts == old(prompts)
    {
      err := StatusWriteError(prompts, key, fault);
      if err.None? {
        prompts := prompts[key := prompts[key].(status := status)];
      }
    }

    method UpdateScoreConfigStatus(key: NamespacedName, status: ConditionStatusBlock, fault: Option<Error>) returns (err: Option<Error>)
      modifies this`scoreConfigs
      ensures err == StatusWriteError(old(scoreConfigs), key, fault)
      ensures err.None? ==> scoreConfigs == old(scoreConfigs)[key := old(scoreConfigs)[key].(status := status)]
      ensures err.Some? ==> scoreConfigs == old(scoreConfigs)
    {
      err := StatusWriteError(scoreConfigs, key, fault);
      if err.None? {
        scoreConfigs := scoreConfigs[key := scoreConfigs[key].(status := status)];
      }
    }

    method UpdateModelStatus(key: NamespacedName, status: ConditionStatusBlock, fault: Option<Error>) returns (err: Option<Error>)
      modifies this`models
      ensures err == StatusWriteError(old(models), key, fault)
      ensures err.None? ==> models == old(models)[key := old(models)[key].(status := status)]
      ensures err.Some? ==> models == old(models)
    {
      err := StatusWriteError(models, key, fault);
      if err.None? {
        models := models[key := models[key].(status := status)];
      }
    }

    /** `Create` of a secret: the scripted fault (an unreachable server, a
        refused request) when there is one, otherwise "already exists" when
        the name is taken, otherwise the secret is stored. */
    method CreateSecret(key: NamespacedName, secret: Secret, fault: Option<Error>) returns (err: Option<Error>)
      modifies this`secrets
      ensures fault.Some? ==> err == fault
      ensures fault.None? && key in old(secrets) ==> err == Some(AlreadyExists)
      ensures fault.None? && key !in old(secrets) ==> err.None?
      ensures err.None? ==> secrets == old(secrets)[key := secret]
      ensures err.Some? ==> secrets == old(secrets)
    {
      if fault.Some? {
        err := fault;
      } else if key in secrets {
        err := Some(AlreadyExists);
      } else {
        secrets := secrets[key := secret];
        err := None;
      }
    }
  }
}
