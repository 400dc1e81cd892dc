/** `LangfuseModelReconciler.Reconcile`
    (internal/controller/langfusemodel_controller.go). A model definition is
    not scoped to a project: the spec's three price strings are parsed as
    float64 values and the model is posted to Langfuse, after which the
    object's conditions become the single "Available" condition.

    The prices are parsed with their errors dropped. A string that
    overflows ("1e400") or spells "NaN" or "Inf" then gives a price JSON
    cannot write, the marshal error is dropped as well, and the create call
    goes out with an empty body. `PriceAsWritten` models that, and
    `Reconcile` uses it; `Price` sends such a price as 0, the value every
    other unparsable string already gets, and `ReconcileCorrected` uses
    it. */
module ModelController {
  import opened Wrappers
  import opened Errors
  import opened Resources
  import opened LangfuseTypes
  import opened LangfuseClient

  const CreatedMessage: string := "Model created successfully"

  /** The price as the source computes it: whatever value
      `strconv.ParseFloat` returned, its error ignored. */
  function PriceAsWritten(p: Parsed): Float64 {
    p.value
  }

  /** The corrected price: a finite number cleanly parsed, and 0 for
      anything else. */
  function Price(p: Parsed): (x: Float64)
    ensures x.Finite?
    ensures p.err == NoError && p.value.Finite? ==> x == p.value
    ensures !(p.err == NoError && p.value.Finite?) ==> x == Finite(0.0)
  {
    if p.err == NoError && p.value.Finite? then p.value else Finite(0.0)
  }

  /** The `langfuse.Model` built from a spec with the given price mapping:
      no ID, and every string field copied. */
  function ToModelWith(spec: ModelSpec, price: string -> Float64): (m: Model)
    ensures m.id == "" && m.modelName == spec.modelName && m.matchPattern == spec.matchPattern
    ensures m.startDate == spec.startDate && m.unit == spec.unit
    ensures m.tokenizerId == spec.tokenizerId && m.tokenizerConfig == spec.tokenizerConfig
    ensures m.inputPrice == price(spec.inputPrice) && m.outputPrice == price(spec.outputPrice)
    ensures m.totalPrice == price(spec.totalPrice)
  {
    Model("", spec.modelName, spec.matchPattern, spec.startDate, spec.unit,
          price(spec.inputPrice), price(spec.outputPrice), price(spec.totalPrice),
          spec.tokenizerId, spec.tokenizerConfig)
  }

  function ToModelAsWritten(spec: ModelSpec, parse: string -> Parsed): Model {
    ToModelWith(spec, s => PriceAsWritten(parse(s)))
  }

  function ToModel(spec: ModelSpec, parse: string -> Parsed): Model {
    ToModelWith(spec, s => Price(parse(s)))
  }

  /** As written, an input price that overflows float64 leaves the create
      call with an empty body. */
  lemma OverflowingPriceSendsEmptyBody(spec: ModelSpec, parse: string -> Parsed)
    requires IsParseFloat(parse) && spec.inputPrice == "1e400"
    ensures ToModelAsWritten(spec, parse).inputPrice == PosInf
    ensures ModelBody(ToModelAsWritten(spec, parse)) == EmptyBody
  {
  }

  /** As written, a price spelled "NaN" or "Inf" parses without error and
      leaves the create call with an empty body just the same. */
  lemma NonFinitePriceSendsEmptyBody(spec: ModelSpec, parse: string -> Parsed)
    requires IsParseFloat(parse) && (spec.totalPrice == "NaN" || spec.totalPrice == "Inf")
    ensures ModelBody(ToModelAsWritten(spec, parse)) == EmptyBody
  {
  }

  /** With the correction every model marshals, whatever the spec says. */
  lemma CorrectedModelAlwaysMarshals(spec: ModelSpec, parse: string -> Parsed)
    ensures ModelBody(ToModel(spec, parse)).JsonBody?
    ensures MarshalModel(ToModel(spec, parse)).Some?
  {
    var m := ToModel(spec, parse);
    assert m.inputPrice == Price(parse(spec.inputPrice)) && m.outputPrice == Price(parse(spec.outputPrice))
      && m.totalPrice == Price(parse(spec.totalPrice));
  }

  /** The correction changes nothing where the source already sends a
      body: an unparsable string is 0 in both, and a cleanly parsed finite
      number is kept. */
  lemma CorrectionKeepsMarshallableModels(spec: ModelSpec, parse: string -> Parsed)
    requires IsParseFloat(parse)
    requires ModelBody(ToModelAsWritten(spec, parse)).JsonBody?
    ensures ToModel(spec, parse) == ToModelAsWritten(spec, parse)
  {
  }


  /** An empty or malformed price string never aborts the reconcile: it
      reaches the call as 0 (which the JSON body then leaves out), with and
      without the correction. */
  lemma MalformedPriceIsZero(parse: string -> Parsed, s: string)
    requires IsParseFloat(parse) && (s == "" || parse(s).err == ErrSyntax)
    ensures PriceAsWritten(parse(s)) == Finite(0.0) && Price(parse(s)) == Finite(0.0)
  {
  }

  class LangfuseModelReconciler {
    const store: Store
    const langfuse: Client

    constructor (store: Store, langfuse: Client)
      ensures this.store == store && this.langfuse == langfuse
    {
      this.store := store;
      this.langfuse := langfuse;
    }

    twostate predicate Untouched()
      reads this, store, langfuse
    {
      store.models == old(store.models) && langfuse.log == old(langfuse.log)
    }

    /** The state one reconcile leaves behind when `toModel` turns the spec
        into the `langfuse.Model` that is sent. */
    twostate predicate Reconciled(req: NamespacedName, getFault: Option<Error>, toModel: ModelSpec -> Model,
                                  resp: Response, decoded: Result<Model, string>, updateFault: Option<Error>,
                                  now: int, o: Outcome)
      reads this, store, langfuse
    {
      // a failed fetch: "not found" is no error, any other error is returned
      (old(Fetch(store.models, req, getFault)).Failure? ==>
        o == Returned(IgnoreNotFound(old(Fetch(store.models, req, getFault)).error)) && Untouched())
      // the first condition is True: nothing is done
      && ((old(Fetch(store.models, req, getFault)).Success?
           && FirstConditionTrue(old(store.models[req].status.conditions))) ==>
        o == Done && Untouched())
      // past the gate: one call, carrying the model the spec describes
      && ((old(Fetch(store.models, req, getFault)).Success?
           && !FirstConditionTrue(old(store.models[req].status.conditions))) ==>
        var w := StatusWriteError(old(store.models), req, updateFault);
        langfuse.log == old(langfuse.log) + [CreateModelRequest(langfuse.config, toModel(old(store.models[req].spec)))]
        // a failed call is returned and no status is written
        && (DoResult(resp, DecodeInto(decoded)).Failure? ==>
              o == Fail(DoResult(resp, DecodeInto(decoded)).error) && store.models == old(store.models))
        && (DoResult(resp, DecodeInto(decoded)).Success? ==>
              o == Returned(w)
              && store.models == (if w.Some? then old(store.models) else
                   old(store.models)[req := old(store.models[req]).(status :=
                     ConditionStatusBlock([AvailableCondition(CreatedMessage, now)]))])))
    }

    /** One reconcile of the model `req`, as the source does it: the prices
        are what `parse` (standing for `strconv.ParseFloat`) returns, errors
        ignored. Scripted answers: `getFault` for the fetch, `resp` and
        `decoded` for the create call, `updateFault` for the status write;
        `now` is the clock. */
    method Reconcile(req: NamespacedName, getFault: Option<Error>, parse: string -> Parsed,
                     resp: Response, decoded: Result<Model, string>, updateFault: Option<Error>, now: int)
      returns (o: Outcome)
      modifies store`models, langfuse`log
      ensures Reconciled(req, getFault, spec => ToModelAsWritten(spec, parse), resp, decoded, updateFault, now, o)
    {
      o := ReconcileWith(req, getFault, spec => ToModelAsWritten(spec, parse), resp, decoded, updateFault, now);
    }

    /** The same reconcile with the corrected prices of `Price`. */
    method ReconcileCorrected(req: NamespacedName, getFault: Option<Error>, parse: string -> Parsed,
                              resp: Response, decoded: Result<Model, string>, updateFault: Option<Error>, now: int)
      returns (o: Outcome)
      modifies store`models, langfuse`log
      ensures Reconciled(req, getFault, spec => ToModel(spec, parse), resp, decoded, updateFault, now, o)
    {
      o := ReconcileWith(req, getFault, spec => ToModel(spec, parse), resp, decoded, updateFault, now);
    }

    method ReconcileWith(req: NamespacedName, getFault: Option<Error>, toModel: ModelSpec -> Model,
                         resp: Response, decoded: Result<Model, string>, updateFault: Option<Error>, now: int)
      returns (o: Outcome)
      modifies store`models, langfuse`log
      ensures Reconciled(req, getFault, toModel, resp, decoded, updateFault, now, o)
    {
      var fetched := Fetch(store.models, req, getFault);
      if fetched.Failure? {
        return Returned(IgnoreNotFound(fetched.error));
      }
      var model := fetched.value;

      if FirstConditionTrue(model.status.conditions) {
        return Done;
      }

      var lfModel := toModel(model.spec);
      var created := langfuse.CreateModel(lfModel, resp, decoded);
      if created.Failure? {
        return Fail(created.error);
      }

      model := model.(status := ConditionStatusBlock([AvailableCondition(CreatedMessage, now)]));
      var err := store.UpdateModelStatus(req, model.status, updateFault);
      if err.Some? {
        return Fail(err.value);
      }
      return Done;
    }
  }
}
