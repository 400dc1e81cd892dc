/** `LangfuseScoreConfigReconciler.Reconcile`
    (internal/controller/langfusescoreconfig_controller.go). Once the parent
    project has a Langfuse ID, the score config is posted to that project
    and the object's conditions become the single "Available" condition. */
module ScoreConfigController {
  import opened Wrappers
  import opened Errors
  import opened Resources
  import opened LangfuseTypes
  import opened LangfuseClient

  const CreatedMessage: string := "Score Config created"

  /** The payload handed to `CreateScoreConfig`: exactly five keys, each
      copied from the spec; a bound or category list that is not set is
      sent as null. */
  function ScoreConfigPayload(spec: ScoreConfigSpec): (j: Json)
    ensures j.JObject? && j.members.Keys == {"name", "dataType", "minValue", "maxValue", "categories"}
    ensures j.members["name"] == JString(spec.name) && j.members["dataType"] == JString(spec.dataType)
    ensures j.members["minValue"] == IntJson(spec.minValue) && j.members["maxValue"] == IntJson(spec.maxValue)
    ensures j.members["categories"] == StringListJson(spec.categories)
  {
    JObject(map[
      "name" := JString(spec.name),
      "dataType" := JString(spec.dataType),
      "minValue" := IntJson(spec.minValue),
      "maxValue" := IntJson(spec.maxValue),
      "categories" := StringListJson(spec.categories)])
  }

  /** Nothing of the spec but the project reference is lost on the way to
      Langfuse. */
  lemma ScoreConfigPayloadInjective(s1: ScoreConfigSpec, s2: ScoreConfigSpec)
    requires ScoreConfigPayload(s1) == ScoreConfigPayload(s2)
    ensures s1.name == s2.name && s1.dataType == s2.dataType
    ensures s1.minValue == s2.minValue && s1.maxValue == s2.maxValue && s1.categories == s2.categories
  {
    assert IntJson(s1.minValue) == IntJson(s2.minValue);
    assert IntJson(s1.maxValue) == IntJson(s2.maxValue);
    assert StringListJson(s1.categories) == StringListJson(s2.categories);
    if s1.categories.Some? && s2.categories.Some? {
      JStringsInjective(s1.categories.value, s2.categories.value);
    }
  }

  class LangfuseScoreConfigReconciler {
    const store: Store
    const langfuse: Client

    constructor (store: Store, langfuse: Client)
      ensures this.store == store && this.langfuse == langfuse
    {
      this.store := store;
      this.langfuse := langfuse;
    }

    twostate predicate Untouched()
      reads this, store, langfuse
    {
      store.scoreConfigs == old(store.scoreConfigs) && langfuse.log == old(langfuse.log)
    }

    /** One reconcile of the score config `req`. Scripted answers:
        `getFault` and `projectFault` for the fetches, `resp` for the create
        call, `updateFault` for the status write; `now` is the clock. */
    method Reconcile(req: NamespacedName, getFault: Option<Error>, projectFault: Option<Error>,
                     resp: Response, updateFault: Option<Error>, now: int)
      returns (o: Outcome)
      modifies store`scoreConfigs, langfuse`log
      // a failed fetch: "not found" is no error, any other error is returned
      ensures old(Fetch(store.scoreConfigs, req, getFault)).Failure? ==>
        o == Returned(IgnoreNotFound(old(Fetch(store.scoreConfigs, req, getFault)).error)) && Untouched()
      // the first condition is True: nothing is done
      ensures (old(Fetch(store.scoreConfigs, req, getFault)).Success?
               && FirstConditionTrue(old(store.scoreConfigs[req].status.conditions))) ==>
        o == Done && Untouched()
      // past the gate
      ensures (old(Fetch(store.scoreConfigs, req, getFault)).Success?
               && !FirstConditionTrue(old(store.scoreConfigs[req].status.conditions))) ==>
        var spec := old(store.scoreConfigs[req].spec);
        var parent := old(Fetch(store.projects, NamespacedName(req.namespace, spec.projectRef), projectFault));
        var w := StatusWriteError(old(store.scoreConfigs), req, updateFault);
        // the parent cannot be fetched: the error is returned, even "not found"
        (parent.Failure? ==> o == Fail(parent.error) && Untouched())
        // the parent has no ID yet: requeue, and no call
        && (parent.Success? && parent.value.status.id == "" ==> o == Requeue && Untouched())
        // the parent has an ID: one call; a failed call is returned and no status is written
        && (parent.Success? && parent.value.status.id != "" ==>
          langfuse.log == old(langfuse.log)
            + [CreateInProjectRequest(langfuse.config, parent.value.status.id, ScoreConfigs, ScoreConfigPayload(spec))]
          && (StatusError(resp).Some? ==>
                o == Fail(StatusError(resp).value) && store.scoreConfigs == old(store.scoreConfigs))
          && (StatusError(resp).None? ==>
                o == Returned(w)
                && store.scoreConfigs == (if w.Some? then old(store.scoreConfigs) else
                     old(store.scoreConfigs)[req := old(store.scoreConfigs[req]).(status :=
                       ConditionStatusBlock([AvailableCondition(CreatedMessage, now)]))])))
    {
      var fetched := Fetch(store.scoreConfigs, req, getFault);
      if fetched.Failure? {
        return Returned(IgnoreNotFound(fetched.error));
      }
      var config := fetched.value;

      if FirstConditionTrue(config.status.conditions) {
        return Done;
      }

      var parent := Fetch(store.projects, NamespacedName(req.namespace, config.spec.projectRef), projectFault);
      if parent.Failure? {
        return Fail(parent.error);
      }
      var project := parent.value;

      if project.status.id == "" {
        return Requeue;
      }

      var callErr := langfuse.CreateScoreConfig(project.status.id, ScoreConfigPayload(config.spec), resp);
      if callErr.Some? {
        return Fail(callErr.value);
      }

      config := config.(status := ConditionStatusBlock([AvailableCondition(CreatedMessage, now)]));
      var err := store.UpdateScoreConfigStatus(req, config.status, updateFault);
      if err.Some? {
        return Fail(err.value);
      }
      return Done;
    }
  }
}
