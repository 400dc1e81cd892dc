/** `LangfuseProjectReconciler.Reconcile`
    (internal/controller/langfuseproject_controller.go): the root kind. A
    project without a Langfuse ID is created in Langfuse once; the ID and
    the state "Ready" (or the state "Error") are then written back through
    the status subresource. The conditions are never read or written. */
module ProjectController {
  import opened Wrappers
  import opened Errors
  import opened Resources
  import LangfuseTypes
  import opened LangfuseClient

  const StateReady: string := "Ready"
  const StateError: string := "Error"

  class LangfuseProjectReconciler {
    const store: Store
    const langfuse: Client

    constructor (store: Store, langfuse: Client)
      ensures this.store == store && this.langfuse == langfuse
    {
      this.store := store;
      this.langfuse := langfuse;
    }

    /** One reconcile of the project `req`. The store and the Langfuse
        server answer as scripted: `getFault` and `updateFault` for the two
        store calls, `resp` and `decoded` for the create call. */
    method Reconcile(req: NamespacedName, getFault: Option<Error>, resp: Response,
                     decoded: Result<LangfuseTypes.Project, string>, updateFault: Option<Error>)
      returns (o: Outcome)
      modifies store`projects, langfuse`log
      // a failed fetch: "not found" is no error, any other error is returned
      ensures old(Fetch(store.projects, req, getFault)).Failure? ==>
        o == Returned(IgnoreNotFound(old(Fetch(store.projects, req, getFault)).error))
        && store.projects == old(store.projects) && langfuse.log == old(langfuse.log)
      // an assigned ID: nothing is done
      ensures old(Fetch(store.projects, req, getFault)).Success? && old(store.projects[req].status.id) != "" ==>
        o == Done && store.projects == old(store.projects) && langfuse.log == old(langfuse.log)
      // no ID yet: exactly one create call, with the spec's name
      ensures old(Fetch(store.projects, req, getFault)).Success? && old(store.projects[req].status.id) == "" ==>
        langfuse.log == old(langfuse.log) + [CreateProjectRequest(langfuse.config, old(store.projects[req].spec.name))]
      // the create failed: state "Error" is written, the create error is
      // returned unless the write failed
      ensures (old(Fetch(store.projects, req, getFault)).Success? && old(store.projects[req].status.id) == ""
               && DoResult(resp, DecodeInto(decoded)).Failure?) ==>
        var w := StatusWriteError(old(store.projects), req, updateFault);
        o == Fail(if w.Some? then w.value else DoResult(resp, DecodeInto(decoded)).error)
        && store.projects == (if w.Some? then old(store.projects) else
             old(store.projects)[req := old(store.projects[req]).(status := old(store.projects[req].status).(state := StateError))])
      // the create succeeded: the returned ID and state "Ready" are written
      ensures (old(Fetch(store.projects, req, getFault)).Success? && old(store.projects[req].status.id) == ""
               && DoResult(resp, DecodeInto(decoded)).Success?) ==>
        var w := StatusWriteError(old(store.projects), req, updateFault);
        o == Returned(w)
        && store.projects == (if w.Some? then old(store.projects) else
             old(store.projects)[req := old(store.projects[req]).(status := old(store.projects[req].status).(id := decoded.value.id, state := StateReady))])
      // what follows for every object in the store
      ensures o != Requeue
      ensures store.projects.Keys == old(store.projects).Keys
      ensures forall k :: k in old(store.projects) ==>
        store.projects[k].spec == old(store.projects)[k].spec
        && store.projects[k].status.conditions == old(store.projects)[k].status.conditions
      ensures forall k :: k in old(store.projects) && old(store.projects)[k].status.id != "" ==>
        store.projects[k] == old(store.projects)[k]
      ensures |langfuse.log| <= |old(langfuse.log)| + 1
    {
      var fetched := Fetch(store.projects, req, getFault);
      if fetched.Failure? {
        return Returned(IgnoreNotFound(fetched.error));
      }
      var project := fetched.value;

      if project.status.id != "" {
        return Done;
      }

      var created := langfuse.CreateProject(project.spec.name, resp, decoded);
      if created.Failure? {
        project := project.(status := project.status.(state := StateError));
        var err := store.UpdateProjectStatus(req, project.status, updateFault);
        if err.Some? {
          return Fail(err.value);
        }
        return Fail(created.error);
      }

      project := project.(status := project.status.(id := created.value.id, state := StateReady));
      var err := store.UpdateProjectStatus(req, project.status, updateFault);
      if err.Some? {
        return Fail(err.value);
      }
      return Done;
    }
  }
}
