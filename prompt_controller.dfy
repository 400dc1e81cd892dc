/** `LangfusePromptReconciler.Reconcile`
    (internal/controller/langfuseprompt_controller.go). Once the parent
    project has a Langfuse ID, the prompt is posted to that project and the
    object's conditions become the single "Available" condition. */
module PromptController {
  import opened Wrappers
  import opened Errors
  import opened Resources
  import opened LangfuseTypes
  import opened LangfuseClient

  const CreatedMessage: string := "Prompt created"

  /** The payload handed to `CreatePrompt`: a map with exactly five keys,
      each copied from the spec. */
  function PromptPayload(spec: PromptSpec): (j: Json)
    ensures j.JObject? && j.members.Keys == {"name", "prompt", "type", "config", "labels"}
    ensures j.members["name"] == JString(spec.name) && j.members["prompt"] == JString(spec.prompt)
    ensures j.members["type"] == JString(spec.promptType)
    ensures j.members["config"] == StringMapJson(spec.config) && j.members["labels"] == StringListJson(spec.labels)
  {
    JObject(map[
      "name" := JString(spec.name),
      "prompt" := JString(spec.prompt),
      "type" := JString(spec.promptType),
      "config" := StringMapJson(spec.config),
      "labels" := StringListJson(spec.labels)])
  }

  /** Nothing of the spec but the project reference is lost on the way to
      Langfuse: different prompts give different payloads. */
  lemma PromptPayloadInjective(s1: PromptSpec, s2: PromptSpec)
    requires PromptPayload(s1) == PromptPayload(s2)
    ensures s1.name == s2.name && s1.prompt == s2.prompt && s1.promptType == s2.promptType
    ensures s1.config == s2.config && s1.labels == s2.labels
  {
    StringMapJsonInjective(s1.config, s2.config);
    if s1.labels.Some? && s2.labels.Some? {
      JStringsInjective(s1.labels.value, s2.labels.value);
    }
  }

  class LangfusePromptReconciler {
    const store: Store
    const langfuse: Client

    constructor (store: Store, langfuse: Client)
      ensures this.store == store && this.langfuse == langfuse
    {
      this.store := store;
      this.langfuse := langfuse;
    }

    twostate predicate Untouched()
      reads this, store, langfuse
    {
      store.prompts == old(store.prompts) && langfuse.log == old(langfuse.log)
    }

    /** One reconcile of the prompt `req`. Scripted answers: `getFault`
        and `projectFault` for the fetches, `resp` for the create call,
        `updateFault` for the status write; `now` is the clock. */
    method Reconcile(req: NamespacedName, getFault: Option<Error>, projectFault: Option<Error>,
                     resp: Response, updateFault: Option<Error>, now: int)
      returns (o: Outcome)
      modifies store`prompts, langfuse`log
      // a failed fetch: "not found" is no error, any other error is returned
      ensures old(Fetch(store.prompts, req, getFault)).Failure? ==>
        o == Returned(IgnoreNotFound(old(Fetch(store.prompts, req, getFault)).error)) && Untouched()
      // the first condition is True: nothing is done
      ensures (old(Fetch(store.prompts, req, getFault)).Success?
               && FirstConditionTrue(old(store.prompts[req].status.conditions))) ==>
        o == Done && Untouched()
      // past the gate
      ensures (old(Fetch(store.prompts, req, getFault)).Success?
               && !FirstConditionTrue(old(store.prompts[req].status.conditions))) ==>
        var spec := old(store.prompts[req].spec);
        var parent := old(Fetch(store.projects, NamespacedName(req.namespace, spec.projectRef), projectFault));
        var w := StatusWriteError(old(store.prompts), req, updateFault);
        // the parent cannot be fetched: the error is returned, even "not found"
        (parent.Failure? ==> o == Fail(parent.error) && Untouched())
        // the parent has no ID yet: requeue, and no call
        && (parent.Success? && parent.value.status.id == "" ==> o == Requeue && Untouched())
        // the parent has an ID: one call; a failed call is returned and no status is written
        && (parent.Success? && parent.value.status.id != "" ==>
          langfuse.log == old(langfuse.log)
            + [CreateInProjectRequest(langfuse.config, parent.value.status.id, Prompts, PromptPayload(spec))]
          && (StatusError(resp).Some? ==> o == Fail(StatusError(resp).value) && store.prompts == old(store.prompts))
          && (StatusError(resp).None? ==>
                o == Returned(w)
                && store.prompts == (if w.Some? then old(store.prompts) else
                     old(store.prompts)[req := old(store.prompts[req]).(status :=
                       ConditionStatusBlock([AvailableCondition(CreatedMessage, now)]))])))
    {
      var fetched := Fetch(store.prompts, req, getFault);
      if fetched.Failure? {
        return Returned(IgnoreNotFound(fetched.error));
      }
      var prompt := fetched.value;

      if FirstConditionTrue(prompt.status.conditions) {
        return Done;
      }

      var parent := Fetch(store.projects, NamespacedName(req.namespace, prompt.spec.projectRef), projectFault);
      if parent.Failure? {
        return Fail(parent.error);
      }
      var project := parent.value;

      if project.status.id == "" {
        return Requeue;
      }

      var callErr := langfuse.CreatePrompt(project.status.id, PromptPayload(prompt.spec), resp);
      if callErr.Some? {
        return Fail(callErr.value);
      }

      prompt := prompt.(status := ConditionStatusBlock([AvailableCondition(CreatedMessage, now)]));
      var err := store.UpdatePromptStatus(req, prompt.status, updateFault);
      if err.Some? {
        return Fail(err.value);
      }
      return Done;
    }
  }
}
