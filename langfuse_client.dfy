/** The Langfuse HTTP adapter (internal/langfuse/client.go): configuration
    from the environment, the request each operation sends (method, URL,
    body), the two headers `do` sets on every request, and how `do` turns
    the transport's answer into an error or a decoded value.

    The transport and the JSON decoder are outside the model: each call is
    given the `Response` the server would send and, for calls that decode
    a body, the outcome of decoding it. The client keeps a ghost log of the
    requests it has sent, headers included. */
module LangfuseClient {
  import opened Wrappers
  import opened Errors
  import opened LangfuseTypes
  import BasicAuth

  const DefaultBaseUrl: string := "https://cloud.langfuse.com"
  const HostVariable: string := "LANGFUSE_HOST"
  const PublicKeyVariable: string := "LANGFUSE_PUBLIC_KEY"
  const SecretKeyVariable: string := "LANGFUSE_SECRET_KEY"

  /** The three settings of a `Client`. */
  datatype Config = Config(baseUrl: string, publicKey: string, secretKey: string)

  /** `os.Getenv`: an unset variable reads as the empty string. */
  function Getenv(env: map<string, string>, name: string): string {
    if name in env then env[name] else ""
  }

  /** The settings `NewClient` reads: an empty or unset LANGFUSE_HOST falls
      back to Langfuse Cloud; the keys are taken as they are. */
  function NewConfig(env: map<string, string>): (c: Config)
    ensures c.baseUrl != ""
    ensures Getenv(env, HostVariable) != "" ==> c.baseUrl == env[HostVariable]
    ensures Getenv(env, HostVariable) == "" ==> c.baseUrl == DefaultBaseUrl
    ensures c.publicKey == Getenv(env, PublicKeyVariable) && c.secretKey == Getenv(env, SecretKeyVariable)
  {
    var host := Getenv(env, HostVariable);
    Config(if host == "" then DefaultBaseUrl else host, Getenv(env, PublicKeyVariable), Getenv(env, SecretKeyVariable))
  }

  datatype HttpMethod = Get | Post

  /** The body of a request: none (GET), a marshalled document, or the
      empty body a request gets when `json.Marshal` failed and its error
      was dropped. */
  datatype Body = NoBody | JsonBody(doc: Json) | EmptyBody

  /** A request as it goes on the wire. */
  datatype Request = Request(verb: HttpMethod, url: string, header: map<string, seq<string>>, body: Body)

  const AuthorizationHeader: string := "Authorization"
  const ContentTypeHeader: string := "Content-Type"
  const JsonMediaType: string := "application/json"

  /** The Authorization value: Basic credentials with the public key as
      user-id and the secret key as password. */
  function Authorization(c: Config): string {
    BasicAuth.Credentials(c.publicKey, c.secretKey)
  }

  /** The header every request leaves with, `do` having set both entries
      on an otherwise empty header. */
  function SentHeader(c: Config): map<string, seq<string>> {
    map[AuthorizationHeader := [Authorization(c)], ContentTypeHeader := [JsonMediaType]]
  }

  /** Every request carries exactly two headers: JSON as the content type,
      and Basic credentials a server reads back as (public key, secret key)
      whenever the public key has no colon. */
  lemma SentHeaderCarriesCredentials(c: Config)
    requires ':' !in c.publicKey
    ensures SentHeader(c).Keys == {AuthorizationHeader, ContentTypeHeader}
    ensures SentHeader(c)[ContentTypeHeader] == [JsonMediaType]
    ensures |SentHeader(c)[AuthorizationHeader]| == 1
    ensures BasicAuth.Parse(SentHeader(c)[AuthorizationHeader][0]) == Some((c.publicKey, c.secretKey))
  {
    BasicAuth.ParseCredentials(c.publicKey, c.secretKey);
  }

  // ---- URLs

  const ProjectsPath: string := "/api/public/projects"
  const ModelsPath: string := "/api/public/models"

  /** The project-scoped collections the client posts to. */
  datatype ProjectCollection = ApiKeys | LlmConnections | Prompts | ScoreConfigs

  function CollectionSuffix(k: ProjectCollection): (s: string)
    ensures |s| > 1 && s[0] == '/'
  {
    match k
    case ApiKeys => "/apiKeys"
    case LlmConnections => "/llm-connections"
    case Prompts => "/prompts"
    case ScoreConfigs => "/score-configs"
  }

  /** `GetProject`'s URL. */
  function ProjectUrl(base: string, id: string): string {
    base + ProjectsPath + "/" + id
  }

  /** The URL of a collection inside project `id`. */
  function ProjectScopedUrl(base: string, id: string, k: ProjectCollection): string {
    base + ProjectsPath + "/" + id + CollectionSuffix(k)
  }

  lemma SuffixInjective(k1: ProjectCollection, k2: ProjectCollection)
    requires CollectionSuffix(k1) == CollectionSuffix(k2)
    ensures k1 == k2
  {
    var s := CollectionSuffix(k1);
    assert s[1] == CollectionSuffix(k2)[1];
  }

  /** Where the first slash of `s` stands (`|s|` when there is none). */
  function SlashIndex(s: string): (i: nat)
    ensures i <= |s|
  {
    if s == [] || s[0] == '/' then 0 else 1 + SlashIndex(s[1..])
  }

  /** A slash-free name followed by something starting with a slash: the
      first slash is the one right after the name. */
  lemma {:induction false} SlashIndexAfter(a: string, s: string)
    requires '/' !in a && |s| > 0 && s[0] == '/'
    ensures SlashIndex(a + s) == |a|
  {
    if a != [] {
      assert (a + s)[0] == a[0] && a[0] in a;
      assert (a + s)[1..] == a[1..] + s;
      SlashIndexAfter(a[1..], s);
    }
  }

  /** A project-scoped URL names its project and its collection: two calls
      with slash-free project IDs reach the same URL only when they target
      the same collection of the same project. */
  lemma ProjectScopedUrlInjective(base: string, id1: string, k1: ProjectCollection, id2: string, k2: ProjectCollection)
    requires '/' !in id1 && '/' !in id2
    requires ProjectScopedUrl(base, id1, k1) == ProjectScopedUrl(base, id2, k2)
    ensures id1 == id2 && k1 == k2
  {
    var p := base + ProjectsPath + "/";
    Regroup(base + ProjectsPath + "/", id1, CollectionSuffix(k1));
    Regroup(base + ProjectsPath + "/", id2, CollectionSuffix(k2));
    StripPrefix(p, id1 + CollectionSuffix(k1), id2 + CollectionSuffix(k2));
    IdThenSuffix(id1, k1, id2, k2);
  }

  lemma Regroup(p: string, x: string, y: string)
    ensures p + x + y == p + (x + y)
  {
  }

  lemma StripPrefix(p: string, x: string, y: string)
    requires p + x == p + y
    ensures x == y
  {
    assert x == (p + x)[|p|..] && y == (p + y)[|p|..];
  }

  lemma IdThenSuffix(id1: string, k1: ProjectCollection, id2: string, k2: ProjectCollection)
    requires '/' !in id1 && '/' !in id2
    requires id1 + CollectionSuffix(k1) == id2 + CollectionSuffix(k2)
    ensures id1 == id2 && k1 == k2
  {
    var t := id1 + CollectionSuffix(k1);
    SlashIndexAfter(id1, CollectionSuffix(k1));
    SlashIndexAfter(id2, CollectionSuffix(k2));
    assert id1 == t[..|id1|] && id2 == t[..|id2|];
    assert CollectionSuffix(k1) == t[|id1|..] && CollectionSuffix(k2) == t[|id2|..];
    SuffixInjective(k1, k2);
  }

  /** `GetProject` on a slash-free ID never reaches a collection URL. */
  lemma ProjectUrlNotScoped(base: string, id1: string, id2: string, k: ProjectCollection)
    requires '/' !in id1
    ensures ProjectUrl(base, id1) != ProjectScopedUrl(base, id2, k)
  {
    var p := base + ProjectsPath + "/";
    var s := CollectionSuffix(k);
    assert ProjectUrl(base, id1) == p + id1;
    assert ProjectScopedUrl(base, id2, k) == p + (id2 + s);
    assert (p + (id2 + s))[|p| + |id2|] == '/';
    if |id1| > |id2| {
      assert (p + id1)[|p| + |id2|] == id1[|id2|];
    }
  }

  // ---- what `do` returns

  /** What the transport delivered: an error, or a status line and body. */
  datatype Response =
    | TransportFailure(message: string)
    | HttpResponse(statusCode: int, status: string, body: string)

  /** The value `do` is asked to decode the body into: nil, or a target
      together with what decoding the body into it gives. */
  datatype Target<T> = NoTarget | DecodeInto(decoded: Result<T, string>)

  /** The error `do` reports from the response alone: the transport's error
      unchanged, or an "API error" carrying the status line and the body for
      any status of 400 or more. */
  function StatusError(resp: Response): (e: Option<Error>)
    ensures resp.TransportFailure? ==> e == Some(Transport(resp.message))
    ensures resp.HttpResponse? ==> (e.None? <==> resp.statusCode < 400)
    ensures resp.HttpResponse? && e.Some? ==> e.value == Api("API error: " + resp.status + ": " + resp.body)
  {
    match resp
    case TransportFailure(m) => Some(Transport(m))
    case HttpResponse(code, status, body) =>
      if code >= 400 then Some(Api("API error: " + status + ": " + body)) else None
  }

  /** What `do` returns: the status error if there is one; otherwise nothing
      for a nil target, and the decoded value or the decoder's error for a
      real one. */
  function DoResult<T>(resp: Response, target: Target<T>): (r: Result<Option<T>, Error>)
    ensures r.Success? <==> StatusError(resp).None? && (target.DecodeInto? ==> target.decoded.Success?)
    ensures StatusError(resp).Some? ==> r == Failure(StatusError(resp).value)
    ensures r.Success? && target.NoTarget? ==> r.value.None?
    ensures r.Success? && target.DecodeInto? ==> r.value == Some(target.decoded.value)
    ensures r.Failure? && StatusError(resp).None? ==> target.DecodeInto? && r.error == Decode(target.decoded.error)
  {
    match StatusError(resp)
    case Some(e) => Failure(e)
    case None =>
      match target
      case NoTarget => Success(None)
      case DecodeInto(Success(v)) => Success(Some(v))
      case DecodeInto(Failure(m)) => Failure(Decode(m))
  }

  /** An `*http.Request` being prepared; `do` sets its header entries. */
  class HttpRequest {
    const verb: HttpMethod
    const url: string
    const body: Body
    var header: map<string, seq<string>>

    /** `http.NewRequest`: a fresh request with an empty header. */
    constructor (verb: HttpMethod, url: string, body: Body)
      ensures this.verb == verb && this.url == url && this.body == body
      ensures header == map[]
    {
      this.verb := verb;
      this.url := url;
      this.body := body;
      header := map[];
    }

    /** `Header.Set`: the key now holds exactly the one value. */
    method Set(key: string, value: string)
      modifies this`header
      ensures header == old(header)[key := [value]]
    {
      header := header[key := [value]];
    }

    function Wire(): Request
      reads this
    {
      Request(verb, url, header, body)
    }
  }

  /** `langfuse.Client`. */
  class Client {
    const config: Config
    /** Every request `do` has handed to the transport, in order. */
    ghost var log: seq<Request>

    constructor (config: Config)
      ensures this.config == config && log == []
    {
      this.config := config;
      log := [];
    }

    /** `do`: set the two headers, send, and classify the answer. */
    method Do<T>(req: HttpRequest, resp: Response, target: Target<T>) returns (r: Result<Option<T>, Error>)
      modifies req`header, this`log
      ensures req.header == old(req.header)[AuthorizationHeader := [Authorization(config)]][ContentTypeHeader := [JsonMediaType]]
      ensures log == old(log) + [req.Wire()]
      ensures r == DoResult(resp, target)
    {
      var auth := Authorization(config);
      req.Set(AuthorizationHeader, auth);
      req.Set(ContentTypeHeader, JsonMediaType);
      log := log + [req.Wire()];
      var err := StatusError(resp);
      if err.Some? {
        return Failure(err.value);
      }
      match target {
        case NoTarget =>
          r := Success(None);
        case DecodeInto(d) =>
          if d.Success? {
            r := Success(Some(d.value));
          } else {
            r := Failure(Decode(d.error));
          }
      }
    }

    /** Sends a fresh request and decodes the answer into a `T`. */
    method Exchange<T>(verb: HttpMethod, url: string, body: Body, resp: Response, decoded: Result<T, string>)
      returns (r: Result<T, Error>)
      modifies this`log
      ensures log == old(log) + [Request(verb, url, SentHeader(config), body)]
      ensures r.Success? <==> DoResult(resp, DecodeInto(decoded)).Success?
      ensures r.Success? ==> r.value == decoded.value
      ensures r.Failure? ==> r.error == DoResult(resp, DecodeInto(decoded)).error
    {
      var req := new HttpRequest(verb, url, body);
      var o := Do(req, resp, DecodeInto(decoded));
      if o.Success? {
        r := Success(o.value.value);
      } else {
        r := Failure(o.error);
      }
    }

    /** Sends a fresh request whose answer is not decoded. */
    method Send(url: string, body: Body, resp: Response) returns (err: Option<Error>)
      modifies this`log
      ensures log == old(log) + [Request(Post, url, SentHeader(config), body)]
      ensures err == StatusError(resp)
    {
      var req := new HttpRequest(Post, url, body);
      var o := Do<()>(req, resp, NoTarget);
      err := if o.Success? then None else Some(o.error);
    }

    method CreateProject(name: string, resp: Response, decoded: Result<Project, string>) returns (r: Result<Project, Error>)
      modifies this`log
      ensures log == old(log) + [CreateProjectRequest(config, name)]
      ensures r.Success? <==> DoResult(resp, DecodeInto(decoded)).Success?
      ensures r.Success? ==> r.value == decoded.value
      ensures r.Failure? ==> r.error == DoResult(resp, DecodeInto(decoded)).error
    {
      r := Exchange(Post, config.baseUrl + ProjectsPath, JsonBody(CreateProjectBody(name)), resp, decoded);
    }

    method GetProject(id: string, resp: Response, decoded: Result<Project, string>) returns (r: Result<Project, Error>)
      modifies this`log
      ensures log == old(log) + [GetProjectRequest(config, id)]
      ensures r.Success? <==> DoResult(resp, DecodeInto(decoded)).Success?
      ensures r.Success? ==> r.value == decoded.value
      ensures r.Failure? ==> r.error == DoResult(resp, DecodeInto(decoded)).error
    {
      r := Exchange(Get, ProjectUrl(config.baseUrl, id), NoBody, resp, decoded);
    }

    method CreateApiKey(projectId: string, name: string, resp: Response, decoded: Result<ApiKey, string>)
      returns (r: Result<ApiKey, Error>)
      modifies this`log
      ensures log == old(log) + [CreateApiKeyRequest(config, projectId, name)]
      ensures r.Success? <==> DoResult(resp, DecodeInto(decoded)).Success?
      ensures r.Success? ==> r.value == decoded.value
      ensures r.Failure? ==> r.error == DoResult(resp, DecodeInto(decoded)).error
    {
      r := Exchange(Post, ProjectScopedUrl(config.baseUrl, projectId, ApiKeys),
        JsonBody(CreateApiKeyBody(name, projectId)), resp, decoded);
    }

    method CreateModel(model: Model, resp: Response, decoded: Result<Model, string>) returns (r: Result<Model, Error>)
      modifies this`log
      ensures log == old(log) + [CreateModelRequest(config, model)]
      ensures r.Success? <==> DoResult(resp, DecodeInto(decoded)).Success?
      ensures r.Success? ==> r.value == decoded.value
      ensures r.Failure? ==> r.error == DoResult(resp, DecodeInto(decoded)).error
    {
      r := Exchange(Post, config.baseUrl + ModelsPath, ModelBody(model), resp, decoded);
    }

    method CreateLlmConnection(projectId: string, connection: Json, resp: Response) returns (err: Option<Error>)
      modifies this`log
      ensures log == old(log) + [CreateInProjectRequest(config, projectId, LlmConnections, connection)]
      ensures err == StatusError(resp)
    {
      err := Send(ProjectScopedUrl(config.baseUrl, projectId, LlmConnections), JsonBody(connection), resp);
    }

    method CreatePrompt(projectId: string, prompt: Json, resp: Response) returns (err: Option<Error>)
      modifies this`log
      ensures log == old(log) + [CreateInProjectRequest(config, projectId, Prompts, prompt)]
      ensures err == StatusError(resp)
    {
      err := Send(ProjectScopedUrl(config.baseUrl, projectId, Prompts), JsonBody(prompt), resp);
    }

    method CreateScoreConfig(projectId: string, scoreConfig: Json, resp: Response) returns (err: Option<Error>)
      modifies this`log
      ensures log == old(log) + [CreateInProjectRequest(config, projectId, ScoreConfigs, scoreConfig)]
      ensures err == StatusError(resp)
    {
      err := Send(ProjectScopedUrl(config.baseUrl, projectId, ScoreConfigs), JsonBody(scoreConfig), resp);
    }
  }

  /** `NewClient`. */
  method NewClient(env: map<string, string>) returns (c: Client)
    ensures fresh(c) && c.config == NewConfig(env) && c.log == []
  {
    c := new Client(NewConfig(env));
  }

  // ---- the request of each operation, as sent

  function CreateProjectRequest(c: Config, name: string): Request {
    Request(Post, c.baseUrl + ProjectsPath, SentHeader(c), JsonBody(CreateProjectBody(name)))
  }

  function GetProjectRequest(c: Config, id: string): Request {
    Request(Get, ProjectUrl(c.baseUrl, id), SentHeader(c), NoBody)
  }

  function CreateApiKeyRequest(c: Config, projectId: string, name: string): Request {
    Request(Post, ProjectScopedUrl(c.baseUrl, projectId, ApiKeys), SentHeader(c), JsonBody(CreateApiKeyBody(name, projectId)))
  }

  /** The model body: the marshalled model, or an empty body when the
      marshalling failed. */
  function ModelBody(m: Model): (b: Body)
    ensures b.EmptyBody? <==> !(m.inputPrice.Finite? && m.outputPrice.Finite? && m.totalPrice.Finite?)
  {
    match MarshalModel(m)
    case Some(doc) => JsonBody(doc)
    case None => EmptyBody
  }

  function CreateModelRequest(c: Config, m: Model): Request {
    Request(Post, c.baseUrl + ModelsPath, SentHeader(c), ModelBody(m))
  }

  /** A POST of an already-built document into a project's collection. */
  function CreateInProjectRequest(c: Config, projectId: string, k: ProjectCollection, doc: Json): Request {
    Request(Post, ProjectScopedUrl(c.baseUrl, projectId, k), SentHeader(c), JsonBody(doc))
  }
}
