# ai-chat-backend relay, modelled in Dafny

The relay is a single `POST /chat` endpoint. It checks a bearer credential against the configured key set. It reads a JSON body with a `question` and an optional `model`. It sends the credential's stored conversation plus the new question to one upstream chat-completion API. On a 200 it appends the question and the answer to that credential's history and returns the answer. Each credential owns a `deque(maxlen=MAX_HISTORY)` in a `defaultdict`. That table is the only state.

The model is a pure state machine over the session table `map<string, seq<Turn>>`. One request is one call of `Relay.Handle(cfg, sessions, credential, body, upstream)`. It returns an `Exchange` with three parts: the response, the upstream request if one was made, and the new table. The upstream call is an input, not I/O. It either raised in transport (`TransportError`) or came back with a status and a completion (`Responded(status, Completion(content, reasoning, totalTokens))`).

Files:
- `text.dfy` (module `Text`): Python's argument-less `str.strip()` over CPython's whitespace set.
- `bounded_queue.dfy` (module `BoundedQueue`): `deque.append` with `maxlen`, and its reference meaning "the last `maxlen` elements".
- `relay.dfy` (module `Relay`): configuration, the session table, `verify_key`, body parsing, the lazy session read, message assembly, the history update, and the handler. In backend.py the handler is one function, `chat` (backend.py:48-91). The model splits it in two: `Handle` does the credential and body checks, and `Forward` does everything after them. The split is the model's own and exists only to keep each contract small.
- `relay_properties.dfy` (module `RelayProperties`): properties relating several entries, requests or tables. They cover the role shape of histories (including the odd-bound orphaned answer), runs of successful exchanges, isolation between credentials, the round trip of the outgoing messages, and a worked three-question example.

Facts about backend.py that the model keeps:
- `max_history` bounds history *entries*, not question/answer pairs. Each success appends two entries. With an odd bound, such as the default 5, the oldest kept entry can be an answer whose question was evicted (`RelayProperties.OddBoundOrphansAnswer`).
- Nothing around the upstream call is caught. A non-200 status is turned into 502 explicitly (backend.py:75-76). A transport error such as a timeout raises out of the handler, and the framework answers 500. So does any 200 body not of the shape `Completion` assumes (backend.py:78-82); that case is not modelled (see below).
- The request body is always read as JSON (backend.py:51). Only a `JSONDecodeError` or a missing `question` is caught there (backend.py:54).

## Model

| member | source | states |
|---|---|---|
| `Text.Strip` | backend.py:52 | the stripped question has no whitespace at either end, is no longer than the input, and is empty exactly when the input is all whitespace |
| `Text.StripRecoversCore` | backend.py:52 | strip removes exactly the surrounding whitespace: any trimmed text wrapped in whitespace comes back unchanged |
| `Text.StripIdempotent` | backend.py:52 | stripping an already stripped question changes nothing |
| `BoundedQueue.Append` | backend.py:31 | appending to a deque with `maxlen` yields the last `maxlen` elements of the old contents plus the new one, and never more than `maxlen` |
| `BoundedQueue.LastOfLast` | backend.py:31 | keeping the last `n` elements before further appends loses nothing that the last `n` elements after them would keep |
| `BoundedQueue.AppendAllKeepsLast` | backend.py:31 | after any run of appends the deque holds exactly the last `maxlen` elements of everything appended, in order |
| `Relay.Configure` | backend.py:19-26 | the key set and token come from the file, the model defaults to "THUDM/GLM-4-9B-0414" and the history bound to 5 |
| `Relay.VerifyKey` | backend.py:39-42 | a credential is accepted exactly when it is present and in the key set, and the accepted credential is the session key |
| `Relay.ParseBody` | backend.py:50-55 | a body yields a query exactly when it is JSON with a `question`; the question is exactly `Strip` of that field, has no surrounding whitespace, and is empty iff the field is all whitespace; the model is the body's `model` if present, otherwise the configured default |
| `Relay.Open` | backend.py:61 | reading the defaultdict returns the key's history, or an empty one that is now stored under the key, and changes no other entry |
| `Relay.Render` | backend.py:62 | one upstream message per stored entry, in order, with the role spelled "user" or "assistant" and the content copied |
| `Relay.Messages` | backend.py:62-63 | the outgoing list is the rendered history followed by exactly one user message holding the question |
| `Relay.Record` | backend.py:88-89 | the two appends after a success leave the last `maxHistory` entries of old history + (user, question) + (assistant, answer), within the bound |
| `Relay.ReplyOf` | backend.py:78-83 | the reply carries the upstream content and total tokens, and the reasoning content or "" when it is absent |
| `Relay.Forward` | backend.py:60-91 | an admitted request is always sent upstream, with the bearer token, the chosen model and the history then the question. The key's session exists afterwards and no other key changes. A transport error gives 500 and a non-200 status gives 502, both leaving the history as it was. A 200 returns the upstream answer and stores the last `maxHistory` entries of history plus the new pair |
| `Relay.Handle` | backend.py:48-58 | a missing or unknown credential gives 401 before the body is looked at. A body that `json.loads` rejects with `JSONDecodeError`, or one without `question`, gives 400, and so does a blank question. None of the three sends anything or changes the table, not even by adding a key. Exactly the admitted requests go on to `Forward` with the stripped question and the chosen model, and every history stays within the bound |
| `RelayProperties.RenderRoundTrip` | backend.py:62 | the rendered messages read back as exactly the stored history |
| `RelayProperties.MessagesRoundTrip` | backend.py:62-63 | the outgoing message list reads back as the stored history followed by one user entry with the question |
| `RelayProperties.OldestRole` | backend.py:88-89 | in a history built by successful exchanges the oldest entry is a question exactly when the history has even length |
| `RelayProperties.RecordAlternates` | backend.py:88-89 | a successful exchange keeps user and assistant entries alternating, with the assistant's newest |
| `RelayProperties.OddBoundOrphansAnswer` | backend.py:31 | with an odd bound, once a history fills up its oldest entry is an assistant answer without its question |
| `RelayProperties.DefaultBoundOrphansAnswer` | backend.py:26 | under the default bound of 5, after three exchanges the oldest entry is an assistant answer |
| `RelayProperties.EvenBoundKeepsPairs` | backend.py:88-89 | with an even bound, histories stay even in length and start with a question |
| `RelayProperties.HandleKeepsWellFormed` | backend.py:48-91 | every request, whatever its outcome, keeps every history bounded and alternating |
| `RelayProperties.ReplayIsAppendAll` | backend.py:88-89 | a run of successful exchanges is the run of deque appends of its transcript, question then answer for each |
| `RelayProperties.ReplayKeepsMostRecent` | backend.py:88-89 | after any number of successful exchanges a history is the last `maxHistory` entries of everything recorded, in order |
| `RelayProperties.SessionsAreIsolated` | backend.py:61 | a credential's response, upstream request and new history depend only on that credential's own history |
| `RelayProperties.OthersSeeNoChange` | backend.py:61 | no request changes the history any other credential sees |
| `RelayProperties.FailureIgnoresUpstreamBody` | backend.py:75-76 | with a non-200 status the upstream body has no effect on the response or the table |
| `RelayProperties.FailedFirstRequestOpensEmptySession` | backend.py:61 | a first request that fails upstream still leaves an empty session for its credential |
| `RelayProperties.ThreeQuestionsBoundTwo` | backend.py:61-89 | under a bound of 2 entries, for any three non-empty questions without surrounding whitespace, the third is sent after only the second exchange, and only the third exchange is kept afterwards |

## Left out

- Reading `config.yaml` and starting the server (backend.py:15-26, 96-97) are file I/O and process start-up. The configuration is a `Config` value, and `Relay.Configure` states only the defaults.
- A `max_history` of `None` (an unbounded deque) or a negative one (a `ValueError` when the deque is built) is not modelled. The bound is a `nat`.
- The HTTP call itself, its 60-second timeout and the URL are network I/O (backend.py:72-74). The call's outcome is the `Upstream` input. The URL is always `https://` + host + path, and the configured scheme and port are never used.
- `json.dumps` of the reply (backend.py:85) is a library call. The reply is the `Reply` record.
- FastAPI's dependency injection and `HTTPBearer`: a missing header or a non-Bearer scheme both reach `verify_key` as no credential, modelled as `None`.
- A body whose bytes are not valid UTF-8 (the single byte 0xFF, say) makes `request.json()` raise `UnicodeDecodeError` (backend.py:51). That is not a `JSONDecodeError`, so backend.py:54 does not catch it, and the framework answers 500. This is not modelled: `Body` starts after decoding.
- Bodies that parse as JSON but are not objects, and a `question` that is not a string, raise outside the caught exceptions. They become a framework 500 and are not modelled. Body fields are strings.
- A `model` that is not a string (a number, null, a list) does not raise. `.get` returns it (backend.py:53) and it is forwarded upstream unchanged (backend.py:69). The model only has string `model` values, so this case is not modelled.
- Any 200 upstream body not of the shape `Completion` assumes raises and becomes a framework 500: a body that is not JSON (backend.py:78), an empty `choices` list, or a missing `choices`, `message`, `content`, `usage` or `total_tokens` (backend.py:78-82). It is not modelled: `Completion` always has these fields.
- Two requests with the same credential running at once can interleave on one deque. Requests are modelled one at a time.
- Relay.ReplyOf: upstream fields are strings or absent, never JSON null or another type. A `"reasoning_content": null` comes back from `.get` as `None` (backend.py:81), so the real reply carries null, not "". A `"content": null` or non-string content is returned and also stored in the history (backend.py:78, 89), then sent upstream again on the next request. `Completion` cannot express either case.
