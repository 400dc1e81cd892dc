/** The records the Langfuse public API exchanges (internal/langfuse/types.go),
    the JSON documents the client marshals them to, and the float64 values
    model prices are parsed into. */
module LangfuseTypes {
  import opened Wrappers

  /** `langfuse.Project`. */
  datatype Project = Project(id: string, name: string)

  /** `langfuse.APIKey`. */
  datatype ApiKey = ApiKey(id: string, publicKey: string, secretKey: string, name: string, projectId: string)

  /** A float64: a finite value (rounding is not modelled), an infinity or NaN. */
  datatype Float64 = Finite(value: real) | PosInf | NegInf | NaN

  /** `langfuse.Model`. */
  datatype Model = Model(
    id: string,
    modelName: string,
    matchPattern: string,
    startDate: string,
    unit: string,
    inputPrice: Float64,
    outputPrice: Float64,
    totalPrice: Float64,
    tokenizerId: string,
    tokenizerConfig: string)

  /** A JSON document as `encoding/json` produces it; member order and the
      textual form of numbers are not modelled. */
  datatype Json =
    | JNull
    | JBool(b: bool)
    | JInt(i: int)
    | JNumber(x: real)
    | JString(s: string)
    | JArray(items: seq<Json>)
    | JObject(members: map<string, Json>)

  function JStrings(xs: seq<string>): (j: seq<Json>)
    ensures |j| == |xs| && forall i :: 0 <= i < |xs| ==> j[i] == JString(xs[i])
  {
    if xs == [] then [] else [JString(xs[0])] + JStrings(xs[1..])
  }

  /** A Go `map[string]string` or `[]string` as it marshals: nil is null. */
  function StringMapJson(m: Option<map<string, string>>): (j: Json)
    ensures m.None? <==> j == JNull
    ensures m.Some? ==> (j.JObject? && j.members.Keys == m.value.Keys
                         && forall k :: k in m.value ==> j.members[k] == JString(m.value[k]))
  {
    match m
    case None => JNull
    case Some(cfg) => JObject(map k | k in cfg :: JString(cfg[k]))
  }

  function StringListJson(xs: Option<seq<string>>): (j: Json)
    ensures xs.None? <==> j == JNull
    ensures xs.Some? ==> j == JArray(JStrings(xs.value))
  {
    match xs
    case None => JNull
    case Some(v) => JArray(JStrings(v))
  }

  lemma {:induction false} JStringsInjective(xs: seq<string>, ys: seq<string>)
    requires JStrings(xs) == JStrings(ys)
    ensures xs == ys
  {
    assert |xs| == |ys|;
    forall i | 0 <= i < |xs| ensures xs[i] == ys[i] {
      assert JStrings(xs)[i] == JStrings(ys)[i];
    }
  }

  lemma StringMapJsonInjective(a: Option<map<string, string>>, b: Option<map<string, string>>)
    requires StringMapJson(a) == StringMapJson(b)
    ensures a == b
  {
    if a.Some? && b.Some? {
      assert a.value.Keys == b.value.Keys;
      forall k | k in a.value ensures b.value[k] == a.value[k] {
        assert StringMapJson(a).members[k] == JString(a.value[k]);
        assert StringMapJson(b).members[k] == JString(b.value[k]);
      }
      assert a.value == b.value;
    }
  }

  /** A Go `*int` as it marshals: nil is null. */
  function IntJson(v: Option<int>): (j: Json)
    ensures v.None? <==> j == JNull
    ensures v.Some? ==> j == JInt(v.value)
  {
    match v
    case None => JNull
    case Some(x) => JInt(x)
  }

  /** `CreateProjectRequest{Name}` marshalled. */
  function CreateProjectBody(name: string): (j: Json)
    ensures j.JObject? && j.members.Keys == {"name"} && j.members["name"] == JString(name)
  {
    JObject(map["name" := JString(name)])
  }

  /** `CreateAPIKeyRequest{Name, ProjectID}` marshalled. */
  function CreateApiKeyBody(name: string, projectId: string): (j: Json)
    ensures j.JObject? && j.members.Keys == {"name", "projectId"}
    ensures j.members["name"] == JString(name) && j.members["projectId"] == JString(projectId)
  {
    JObject(map["name" := JString(name), "projectId" := JString(projectId)])
  }

  /** An `omitempty` member: dropped when it holds the zero value. */
  function OmitEmpty(m: map<string, Json>, key: string, v: Json, empty: bool): map<string, Json> {
    if empty then m else m[key := v]
  }

  /** `json.Marshal(model)`: it fails on an infinite or NaN price (the
      encoder refuses values JSON cannot write), and otherwise writes the
      struct members by their tags, leaving out the `omitempty` ones that
      are "" or 0. */
  function MarshalModel(m: Model): (r: Option<Json>)
    ensures r.Some? <==> m.inputPrice.Finite? && m.outputPrice.Finite? && m.totalPrice.Finite?
  {
    if !(m.inputPrice.Finite? && m.outputPrice.Finite? && m.totalPrice.Finite?) then None
    else
      var a := OmitEmpty(map[], "startDate", JString(m.startDate), m.startDate == "");
      var b := OmitEmpty(a, "inputPrice", JNumber(m.inputPrice.value), m.inputPrice.value == 0.0);
      var c := OmitEmpty(b, "outputPrice", JNumber(m.outputPrice.value), m.outputPrice.value == 0.0);
      var d := OmitEmpty(c, "totalPrice", JNumber(m.totalPrice.value), m.totalPrice.value == 0.0);
      var e := OmitEmpty(d, "tokenizerId", JString(m.tokenizerId), m.tokenizerId == "");
      var optional := OmitEmpty(e, "tokenizerConfig", JString(m.tokenizerConfig), m.tokenizerConfig == "");
      var required := map[
        "id" := JString(m.id),
        "modelName" := JString(m.modelName),
        "matchPattern" := JString(m.matchPattern),
        "unit" := JString(m.unit)];
      Some(JObject(optional + required))
  }

  /** A marshalled model carries the four required members, each with its
      field. */
  lemma MarshalModelRequired(m: Model)
    requires m.inputPrice.Finite? && m.outputPrice.Finite? && m.totalPrice.Finite?
    ensures MarshalModel(m).Some? && MarshalModel(m).value.JObject?
    ensures var j := MarshalModel(m).value.members;
      j["id"] == JString(m.id) && j["modelName"] == JString(m.modelName)
      && j["matchPattern"] == JString(m.matchPattern) && j["unit"] == JString(m.unit)
  {
  }

  /** A marshalled model carries a price exactly when the price is not 0. */
  lemma MarshalModelPrices(m: Model)
    requires m.inputPrice.Finite? && m.outputPrice.Finite? && m.totalPrice.Finite?
    ensures MarshalModel(m).Some? && MarshalModel(m).value.JObject?
    ensures var j := MarshalModel(m).value.members;
      ("inputPrice" in j <==> m.inputPrice.value != 0.0)
      && ("outputPrice" in j <==> m.outputPrice.value != 0.0)
      && ("totalPrice" in j <==> m.totalPrice.value != 0.0)
    ensures var j := MarshalModel(m).value.members;
      ("inputPrice" in j ==> j["inputPrice"] == JNumber(m.inputPrice.value))
      && ("outputPrice" in j ==> j["outputPrice"] == JNumber(m.outputPrice.value))
      && ("totalPrice" in j ==> j["totalPrice"] == JNumber(m.totalPrice.value))
  {
  }

  /** A marshalled model carries an optional string exactly when it is not
      empty. */
  lemma MarshalModelOptionalStrings(m: Model)
    requires m.inputPrice.Finite? && m.outputPrice.Finite? && m.totalPrice.Finite?
    ensures MarshalModel(m).Some? && MarshalModel(m).value.JObject?
    ensures var j := MarshalModel(m).value.members;
      ("startDate" in j <==> m.startDate != "")
      && ("tokenizerId" in j <==> m.tokenizerId != "")
      && ("tokenizerConfig" in j <==> m.tokenizerConfig != "")
  {
  }

  /** A present optional string member carries its field. */
  lemma MarshalModelOptionalValues(m: Model)
    requires m.inputPrice.Finite? && m.outputPrice.Finite? && m.totalPrice.Finite?
    ensures MarshalModel(m).Some? && MarshalModel(m).value.JObject?
    ensures var j := MarshalModel(m).value.members;
      ("startDate" in j ==> j["startDate"] == JString(m.startDate))
      && ("tokenizerId" in j ==> j["tokenizerId"] == JString(m.tokenizerId))
      && ("tokenizerConfig" in j ==> j["tokenizerConfig"] == JString(m.tokenizerConfig))
  {
  }

  /** A marshalled model has no member but the ten tagged fields. */
  lemma MarshalModelKeys(m: Model)
    requires m.inputPrice.Finite? && m.outputPrice.Finite? && m.totalPrice.Finite?
    ensures MarshalModel(m).Some? && MarshalModel(m).value.JObject?
    ensures MarshalModel(m).value.members.Keys <= {"id", "modelName", "matchPattern", "startDate", "unit",
      "inputPrice", "outputPrice", "totalPrice", "tokenizerId", "tokenizerConfig"}
  {
  }

  /** The error kinds of `strconv.ParseFloat`. */
  datatype NumError = NoError | ErrSyntax | ErrRange

  /** What `strconv.ParseFloat(s, 64)` returns: a value and an error. */
  datatype Parsed = Parsed(value: Float64, err: NumError)

  /** What the model relies on about `strconv.ParseFloat`, whose digit
      parsing and rounding are not modelled: a syntax error comes with the
      value 0 and a range error with an infinity; the empty string is a
      syntax error; "NaN" and "Inf" parse without error, and "1e400"
      overflows. */
  ghost predicate IsParseFloat(parse: string -> Parsed) {
    (forall s :: parse(s).err == ErrSyntax ==> parse(s).value == Finite(0.0))
    && (forall s :: parse(s).err == ErrRange ==> parse(s).value.PosInf? || parse(s).value.NegInf?)
    && parse("").err == ErrSyntax
    && parse("NaN") == Parsed(NaN, NoError)
    && parse("Inf") == Parsed(PosInf, NoError)
    && parse("1e400") == Parsed(PosInf, ErrRange)
  }
}
