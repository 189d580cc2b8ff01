/** The `/chat` relay: credential check, request validation, per-credential
    bounded history, message assembly for the upstream chat-completion API and
    the history update after a successful answer. One request is one call of
    `Handle`; the upstream's answer is an input rather than a network call. */
module Relay {
  import opened Text
  import opened BoundedQueue

  datatype Option<T> = None | Some(value: T) {
    function GetOr(default: T): T {
      match this
      case Some(v) => v
      case None => default
    }
  }

  /* ---------------- configuration and state ---------------- */

  /** The values read once from the configuration file at start-up. */
  datatype Config = Config(
    validKeys: set<string>,   // api_keys
    upstreamToken: string,    // ai_api_token
    defaultModel: string,     // ai_model
    maxHistory: nat           // max_history: a bound on ENTRIES, not on pairs
  )

  /** The default model name and history bound used when the file gives none. */
  const DefaultModel: string := "THUDM/GLM-4-9B-0414"
  const DefaultMaxHistory: nat := 5

  /** The configuration with the file's optional entries defaulted as at
      start-up; a missing `max_history` gives 5 entries. */
  function Configure(apiKeys: set<string>, token: string, model: Option<string>, maxHistory: Option<nat>): (cfg: Config)
    ensures cfg.validKeys == apiKeys && cfg.upstreamToken == token
    ensures model.Some? ==> cfg.defaultModel == model.value
    ensures model.None? ==> cfg.defaultModel == DefaultModel
    ensures maxHistory.Some? ==> cfg.maxHistory == maxHistory.value
    ensures maxHistory.None? ==> cfg.maxHistory == DefaultMaxHistory
  {
    Config(apiKeys, token, model.GetOr(DefaultModel), maxHistory.GetOr(DefaultMaxHistory))
  }

  datatype Role = User | Assistant

  /** One stored history entry, the `(role, content)` tuple of the deque. */
  datatype Turn = Turn(role: Role, content: string)

  /** The session table: credential to its history, oldest entry first. */
  type Sessions = map<string, seq<Turn>>

  /** Every history respects the deque bound. */
  predicate Bounded(cfg: Config, sessions: Sessions) {
    forall key :: key in sessions ==> |sessions[key]| <= cfg.maxHistory
  }

  /* ---------------- requests and responses ---------------- */

  /** A request body after JSON decoding: either `json.loads` raised
      `JSONDecodeError`, or it produced an object whose fields are strings. */
  datatype Body = Unparseable | Object(fields: map<string, string>)

  /** One element of the upstream `messages` list. */
  datatype Message = Message(role: string, content: string)

  /** What is posted upstream: the Authorization header value and the JSON payload. */
  datatype UpstreamRequest = UpstreamRequest(authorization: string, model: string, messages: seq<Message>)

  /** The fields of a 200 upstream body that the relay reads. */
  datatype Completion = Completion(content: string, reasoning: Option<string>, totalTokens: int)

  /** How the upstream call ended: the transport raised, or a response came back. */
  datatype Upstream = TransportError | Responded(status: int, body: Completion)

  /** The JSON record returned to the caller on success. */
  datatype Reply = Reply(content: string, reasoningContent: string, totalTokens: int)

  datatype Response = Answer(reply: Reply) | Error(status: int, detail: string)

  const OK := 200
  const BadRequest := 400
  const Unauthorized := 401
  const InternalServerError := 500
  const BadGateway := 502

  /** The result of one request: the response, the upstream request if one
      was made, and the session table afterwards. */
  datatype Exchange = Exchange(response: Response, sent: Option<UpstreamRequest>, sessions: Sessions)

  /* ---------------- the steps of the handler ---------------- */

  /** verify_key: the credential is the session key when it is present and
      configured. */
  function VerifyKey(cfg: Config, credential: Option<string>): (key: Option<string>)
    ensures key.Some? <==> credential.Some? && credential.value in cfg.validKeys
    ensures key.Some? ==> key.value == credential.value
  {
    if credential.Some? && credential.value in cfg.validKeys then credential else None
  }

  /** The question (already stripped) and the model named by a request. */
  datatype Query = Query(question: string, model: string)

  /** Reads `question` (stripped) and `model` (or the default) from the body;
      None when the body is not JSON or has no `question`. */
  function ParseBody(cfg: Config, body: Body): (q: Option<Query>)
    ensures q.Some? <==> body.Object? && "question" in body.fields
    ensures q.Some? ==> q.value.question == Strip(body.fields["question"])
    ensures q.Some? ==> Trimmed(q.value.question)
    ensures q.Some? ==> (q.value.question == [] <==> AllSpace(body.fields["question"]))
    ensures q.Some? && "model" in body.fields ==> q.value.model == body.fields["model"]
    ensures q.Some? && "model" !in body.fields ==> q.value.model == cfg.defaultModel
  {
    match body
    case Unparseable => None
    case Object(fields) =>
      if "question" !in fields then None
      else Some(Query(Strip(fields["question"]), if "model" in fields then fields["model"] else cfg.defaultModel))
  }

  /** `sessions[key]` on the defaultdict: the key's history, created empty if
      the key had none, together with the table after the read. */
  function Open(sessions: Sessions, key: string): (r: (seq<Turn>, Sessions))
    ensures key in r.1 && r.1[key] == r.0
    ensures key in sessions ==> r.0 == sessions[key]
    ensures key !in sessions ==> r.0 == []
    ensures r.1.Keys == sessions.Keys + {key}
    ensures forall k :: k in sessions ==> r.1[k] == sessions[k]
  {
    if key in sessions then (sessions[key], sessions) else ([], sessions[key := []])
  }

  function RoleName(role: Role): string {
    match role
    case User => "user"
    case Assistant => "assistant"
  }

  /** The stored history as upstream messages, one per entry, in order. */
  function Render(history: seq<Turn>): (msgs: seq<Message>)
    ensures |msgs| == |history|
    ensures forall i :: 0 <= i < |history| ==>
      msgs[i] == Message(RoleName(history[i].role), history[i].content)
  {
    if history == [] then []
    else [Message(RoleName(history[0].role), history[0].content)] + Render(history[1..])
  }

  /** The outgoing `messages`: the history in order, then the new question. */
  function Messages(history: seq<Turn>, question: string): (msgs: seq<Message>)
    ensures |msgs| == |history| + 1
    ensures msgs[..|history|] == Render(history)
    ensures msgs[|history|] == Message("user", question)
  {
    Render(history) + [Message("user", question)]
  }

  /** The two appends after a successful exchange: the question, then the answer. */
  function Record(history: seq<Turn>, question: string, answer: string, maxHistory: nat): (h: seq<Turn>)
    requires |history| <= maxHistory
    ensures h == Last(history + [Turn(User, question), Turn(Assistant, answer)], maxHistory)
    ensures |h| <= maxHistory
  {
    var withQuestion := Append(history, Turn(User, question), maxHistory);
    LastOfLast(history + [Turn(User, question)], [Turn(Assistant, answer)], maxHistory);
    assert history + [Turn(User, question)] + [Turn(Assistant, answer)]
        == history + [Turn(User, question), Turn(Assistant, answer)];
    Append(withQuestion, Turn(Assistant, answer), maxHistory)
  }

  /** The reply record built from a 200 upstream body. */
  function ReplyOf(c: Completion): (r: Reply)
    ensures r.content == c.content && r.totalTokens == c.totalTokens
    ensures c.reasoning.Some? ==> r.reasoningContent == c.reasoning.value
    ensures c.reasoning.None? ==> r.reasoningContent == ""
  {
    Reply(c.content, c.reasoning.GetOr(""), c.totalTokens)
  }

  /** The history a key sees: its stored turns, or none for a new key. */
  function HistoryOf(sessions: Sessions, key: string): seq<Turn> {
    if key in sessions then sessions[key] else []
  }

  /** The bearer credential is present and configured. */
  predicate KeyAccepted(cfg: Config, credential: Option<string>) {
    credential.Some? && credential.value in cfg.validKeys
  }

  /** The body is JSON and has a `question` field. */
  predicate HasQuestion(body: Body) {
    body.Object? && "question" in body.fields
  }

  /** The request passes the credential check and both body checks. */
  predicate Admitted(cfg: Config, credential: Option<string>, body: Body) {
    KeyAccepted(cfg, credential) && HasQuestion(body) && !AllSpace(body.fields["question"])
  }

  /** The part of POST /chat after validation: open the key's session, post
      its history and the question upstream, and on a 200 record the pair. */
  function Forward(cfg: Config, sessions: Sessions, key: string, query: Query, upstream: Upstream): (x: Exchange)
    requires Bounded(cfg, sessions)
    ensures Bounded(cfg, x.sessions)
    // the request sent upstream: the stored history in order, then the question
    ensures x.sent.Some?
    ensures x.sent.value.authorization == "Bearer " + cfg.upstreamToken
    ensures x.sent.value.model == query.model
    ensures x.sent.value.messages == Render(HistoryOf(sessions, key)) + [Message("user", query.question)]
    // the session is opened whatever the outcome, and nobody else's changes
    ensures x.sessions.Keys == sessions.Keys + {key}
    ensures forall k :: k in sessions && k != key ==> x.sessions[k] == sessions[k]
    // a failed call leaves the history as it was
    ensures upstream.TransportError? ==>
      x.response == Error(InternalServerError, "Internal Server Error")
      && x.sessions[key] == HistoryOf(sessions, key)
    ensures upstream.Responded? && upstream.status != OK ==>
      x.response == Error(BadGateway, "Upstream error")
      && x.sessions[key] == HistoryOf(sessions, key)
    // a 200 returns the upstream's answer and keeps the last maxHistory entries
    ensures upstream.Responded? && upstream.status == OK ==>
      x.response.Answer?
      && x.response.reply.content == upstream.body.content
      && x.response.reply.reasoningContent == upstream.body.reasoning.GetOr("")
      && x.response.reply.totalTokens == upstream.body.totalTokens
      && x.sessions[key] == Last(HistoryOf(sessions, key)
           + [Turn(User, query.question), Turn(Assistant, upstream.body.content)], cfg.maxHistory)
  {
    var history := Open(sessions, key).0;
    var table := Open(sessions, key).1;
    var request := UpstreamRequest("Bearer " + cfg.upstreamToken, query.model, Messages(history, query.question));
    match upstream
    case TransportError =>
      Exchange(Error(InternalServerError, "Internal Server Error"), Some(request), table)
    case Responded(status, completion) =>
      if status != OK then Exchange(Error(BadGateway, "Upstream error"), Some(request), table)
      else
        var updated := Record(history, query.question, completion.content, cfg.maxHistory);
        Exchange(Answer(ReplyOf(completion)), Some(request), table[key := updated])
  }

  /** One POST /chat: the credential check, then the body checks, and only
      then the session and the upstream call. */
  function Handle(cfg: Config, sessions: Sessions, credential: Option<string>, body: Body, upstream: Upstream): (x: Exchange)
    requires Bounded(cfg, sessions)
    ensures Bounded(cfg, x.sessions)
    // a missing or unknown credential is refused before anything else
    ensures !KeyAccepted(cfg, credential) ==>
      x == Exchange(Error(Unauthorized, "Invalid key"), None, sessions)
    // then the body: not JSON or no question, then a blank question
    ensures KeyAccepted(cfg, credential) && !HasQuestion(body) ==>
      x == Exchange(Error(BadRequest, "Invalid JSON format"), None, sessions)
    ensures KeyAccepted(cfg, credential) && HasQuestion(body) && AllSpace(body.fields["question"]) ==>
      x == Exchange(Error(BadRequest, "Empty question"), None, sessions)
    // exactly the admitted requests go upstream, with the stripped question
    // and the requested model or else the configured one
    ensures x.sent.Some? <==> Admitted(cfg, credential, body)
    ensures Admitted(cfg, credential, body) ==>
      var model := if "model" in body.fields then body.fields["model"] else cfg.defaultModel;
      x == Forward(cfg, sessions, credential.value, Query(Strip(body.fields["question"]), model), upstream)
  {
    match VerifyKey(cfg, credential)
    case None => Exchange(Error(Unauthorized, "Invalid key"), None, sessions)
    case Some(key) =>
      match ParseBody(cfg, body)
      case None => Exchange(Error(BadRequest, "Invalid JSON format"), None, sessions)
      case Some(query) =>
        if query.question == [] then Exchange(Error(BadRequest, "Empty question"), None, sessions)
        else Forward(cfg, sessions, key, query, upstream)
  }
}
