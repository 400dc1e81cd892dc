/** `LangfuseAPIKeyReconciler.Reconcile`
    (internal/controller/langfuseapikey_controller.go). Once the parent
    project has a Langfuse ID, a key pair is created for it in Langfuse and
    handed over in a Secret owned by the API key object; the object's
    conditions then become the single "Available" condition. */
module ApiKeyController {
  import opened Wrappers
  import opened Errors
  import opened Resources
  import LangfuseTypes
  import opened LangfuseClient

  const PublicKeyEntry: string := "LANGFUSE_PUBLIC_KEY"
  const SecretKeyEntry: string := "LANGFUSE_SECRET_KEY"
  const HostEntry: string := "LANGFUSE_HOST"
  const CreatedMessage: string := "API Key created successfully"
  const OwnerKind: string := "LangfuseAPIKey"

  /** Where the parent project of an API key object is looked up: the
      request's namespace and the spec's project reference. */
  function ProjectKey(req: NamespacedName, spec: ApiKeySpec): NamespacedName {
    NamespacedName(req.namespace, spec.projectRef)
  }

  /** Where the secret goes: the API key object's namespace (the request's)
      and the spec's secret name. */
  function SecretKey(req: NamespacedName, spec: ApiKeySpec): NamespacedName {
    NamespacedName(req.namespace, spec.secretName)
  }

  /** The secret handed to the workload: exactly the three entries, and the
      API key object as its controller. */
  function KeySecret(req: NamespacedName, key: LangfuseTypes.ApiKey, baseUrl: string): (s: Secret)
    ensures s.stringData.Keys == {PublicKeyEntry, SecretKeyEntry, HostEntry}
    ensures s.stringData[PublicKeyEntry] == key.publicKey && s.stringData[SecretKeyEntry] == key.secretKey
    ensures s.stringData[HostEntry] == baseUrl
    ensures s.owners == [OwnerReference(OwnerKind, req.name, true)]
  {
    Secret(map[PublicKeyEntry := key.publicKey, SecretKeyEntry := key.secretKey, HostEntry := baseUrl],
           [OwnerReference(OwnerKind, req.name, true)])
  }

  class LangfuseApiKeyReconciler {
    const store: Store
    const langfuse: Client

    constructor (store: Store, langfuse: Client)
      ensures this.store == store && this.langfuse == langfuse
    {
      this.store := store;
      this.langfuse := langfuse;
    }

    /** The state a reconcile that stops before any write leaves behind. */
    twostate predicate Untouched()
      reads this, store, langfuse
    {
      store.apiKeys == old(store.apiKeys) && store.secrets == old(store.secrets) && langfuse.log == old(langfuse.log)
    }

    /** One reconcile of the API key object `req`. Scripted answers:
        `getFault` and `projectFault` for the two fetches, `resp` and
        `decoded` for the create call, `ownerFault` for setting the
        controller reference, `createFault` for creating the secret,
        `updateFault` for the status write; `now` is the clock. */
    method Reconcile(req: NamespacedName, getFault: Option<Error>, projectFault: Option<Error>,
                     resp: Response, decoded: Result<LangfuseTypes.ApiKey, string>,
                     ownerFault: Option<Error>, createFault: Option<Error>, updateFault: Option<Error>, now: int)
      returns (o: Outcome)
      modifies store`apiKeys, store`secrets, langfuse`log
      // a failed fetch: "not found" is no error, any other error is returned
      ensures old(Fetch(store.apiKeys, req, getFault)).Failure? ==>
        o == Returned(IgnoreNotFound(old(Fetch(store.apiKeys, req, getFault)).error)) && Untouched()
      // the first condition is True: nothing is done
      ensures (old(Fetch(store.apiKeys, req, getFault)).Success?
               && FirstConditionTrue(old(store.apiKeys[req].status.conditions))) ==>
        o == Done && Untouched()
      // past the gate
      ensures (old(Fetch(store.apiKeys, req, getFault)).Success?
               && !FirstConditionTrue(old(store.apiKeys[req].status.conditions))) ==>
        var spec := old(store.apiKeys[req].spec);
        var parent := old(Fetch(store.projects, ProjectKey(req, spec), projectFault));
        // the parent cannot be fetched: the error is returned, even "not found"
        (parent.Failure? ==> o == Fail(parent.error) && Untouched())
        // the parent has no ID yet: requeue, and no call
        && (parent.Success? && parent.value.status.id == "" ==> o == Requeue && Untouched())
        // the parent has an ID: one call, for that project and the spec's name
        && (parent.Success? && parent.value.status.id != "" ==>
          langfuse.log == old(langfuse.log) + [CreateApiKeyRequest(langfuse.config, parent.value.status.id, spec.name)]
          && (DoResult(resp, DecodeInto(decoded)).Failure? ==>
                o == Fail(DoResult(resp, DecodeInto(decoded)).error)
                && store.apiKeys == old(store.apiKeys) && store.secrets == old(store.secrets))
          && (DoResult(resp, DecodeInto(decoded)).Success? ==>
                SecretStep(req, spec, decoded.value, ownerFault, createFault, updateFault, now, o)))
    {
      var fetched := Fetch(store.apiKeys, req, getFault);
      if fetched.Failure? {
        return Returned(IgnoreNotFound(fetched.error));
      }
      var apiKey := fetched.value;

      if FirstConditionTrue(apiKey.status.conditions) {
        return Done;
      }

      var parent := Fetch(store.projects, ProjectKey(req, apiKey.spec), projectFault);
      if parent.Failure? {
        return Fail(parent.error);
      }
      var project := parent.value;

      if project.status.id == "" {
        return Requeue;
      }

      var created := langfuse.CreateApiKey(project.status.id, apiKey.spec.name, resp, decoded);
      if created.Failure? {
        return Fail(created.error);
      }

      var secret := KeySecret(req, created.value, langfuse.config.baseUrl);
      if ownerFault.Some? {
        return Fail(ownerFault.value);
      }

      var createErr := store.CreateSecret(SecretKey(req, apiKey.spec), secret, createFault);
      if createErr.Some? && IgnoreAlreadyExists(createErr.value).Some? {
        return Fail(createErr.value);
      }

      apiKey := apiKey.(status := ConditionStatusBlock([AvailableCondition(CreatedMessage, now)]));
      var err := store.UpdateApiKeyStatus(req, apiKey.status, updateFault);
      if err.Some? {
        return Fail(err.value);
      }
      return Done;
    }

    /** After a successful create call: the controller reference, the
        secret (an existing one is kept as it is) and the status write. */
    twostate predicate SecretStep(req: NamespacedName, spec: ApiKeySpec, key: LangfuseTypes.ApiKey,
                                  ownerFault: Option<Error>, createFault: Option<Error>, updateFault: Option<Error>,
                                  now: int, o: Outcome)
      reads this, store
    {
      var sk := SecretKey(req, spec);
      var createErr := if createFault.Some? then createFault else if sk in old(store.secrets) then Some(AlreadyExists) else None;
      var w := StatusWriteError(old(store.apiKeys), req, updateFault);
      // setting the controller reference failed: nothing is created
      (ownerFault.Some? ==>
         o == Fail(ownerFault.value) && store.apiKeys == old(store.apiKeys) && store.secrets == old(store.secrets))
      && (ownerFault.None? ==>
         // the secret is stored when the name is free and the create succeeds
         store.secrets == (if createErr.None? then old(store.secrets)[sk := KeySecret(req, key, langfuse.config.baseUrl)]
                           else old(store.secrets))
         // any create error but "already exists" is returned, and no status is written
         && (createErr.Some? && !createErr.value.AlreadyExists? ==>
               o == Fail(createErr.value) && store.apiKeys == old(store.apiKeys))
         // otherwise the conditions become exactly the one Available condition
         && (createErr.None? || createErr.value.AlreadyExists? ==>
               o == Returned(w)
               && store.apiKeys == (if w.Some? then old(store.apiKeys) else
                    old(store.apiKeys)[req := old(store.apiKeys[req]).(status :=
                      ConditionStatusBlock([AvailableCondition(CreatedMessage, now)]))])))
    }
  }
}
