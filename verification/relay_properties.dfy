/** Properties of the relay that relate several entries, several requests or
    several session tables. */
module RelayProperties {
  import opened Text
  import opened BoundedQueue
  import opened Relay

  /* ---------------- the outgoing messages can be read back ---------------- */

  function RoleNamed(name: string): Option<Role> {
    if name == "user" then Some(User)
    else if name == "assistant" then Some(Assistant)
    else None
  }

  /** Reads an upstream `messages` list back into history entries; None if a
      role is neither "user" nor "assistant". */
  function ParseMessages(msgs: seq<Message>): (h: Option<seq<Turn>>)
    ensures h.Some? ==> |h.value| == |msgs|
  {
    if msgs == [] then Some([])
    else
      var role := RoleNamed(msgs[0].role);
      var rest := ParseMessages(msgs[1..]);
      if role.Some? && rest.Some? then Some([Turn(role.value, msgs[0].content)] + rest.value) else None
  }

  /** Rendering loses nothing: the messages sent upstream determine the stored
      history they came from, entry by entry and in order. */
  lemma {:induction false} RenderRoundTrip(history: seq<Turn>)
    ensures ParseMessages(Render(history)) == Some(history)
  {
    if history != [] {
      var r := Render(history);
      RenderRoundTrip(history[1..]);
      assert r[1..] == Render(history[1..]);
      assert RoleNamed(r[0].role) == Some(history[0].role);
      assert ParseMessages(r) == Some([Turn(history[0].role, history[0].content)] + history[1..]);
      assert [history[0]] + history[1..] == history;
    }
  }

  /** The message list of an admitted request reads back as the stored history
      followed by one user entry holding the stripped question. */
  lemma MessagesRoundTrip(history: seq<Turn>, question: string)
    ensures ParseMessages(Messages(history, question)) == Some(history + [Turn(User, question)])
  {
    RenderRoundTrip(history);
    var last := [Message("user", question)];
    assert last[1..] == [];
    assert RoleNamed(last[0].role) == Some(User);
    assert ParseMessages(last[1..]) == Some([]);
    assert [Turn(User, question)] + [] == [Turn(User, question)];
    ParseAppend(Render(history), [Message("user", question)]);
  }

  lemma {:induction false} ParseAppend(a: seq<Message>, b: seq<Message>)
    requires ParseMessages(a).Some? && ParseMessages(b).Some?
    ensures ParseMessages(a + b) == Some(ParseMessages(a).value + ParseMessages(b).value)
  {
    if a != [] {
      assert (a + b)[0] == a[0];
      assert (a + b)[1..] == a[1..] + b;
      ParseAppend(a[1..], b);
      var t := [Turn(RoleNamed(a[0].role).value, a[0].content)];
      assert ParseMessages(a).value == t + ParseMessages(a[1..]).value;
      assert t + (ParseMessages(a[1..]).value + ParseMessages(b).value)
          == (t + ParseMessages(a[1..]).value) + ParseMessages(b).value;
    } else {
      assert a + b == b;
      assert ParseMessages(a).value == [];
      assert ParseMessages(a).value + ParseMessages(b).value == ParseMessages(b).value;
    }
  }

  /* ---------------- the shape of a history ---------------- */

  /** The role an entry must have when it is `fromEnd` places from the end
      (1 = newest): the newest entry is always the assistant's. */
  function RoleFromEnd(fromEnd: int): Role {
    if fromEnd % 2 == 1 then Assistant else User
  }

  /** A history built only by successful exchanges: user and assistant entries
      alternate and the newest one is the assistant's. */
  predicate Alternating(h: seq<Turn>) {
    forall i :: 0 <= i < |h| ==> h[i].role == RoleFromEnd(|h| - i)
  }

  predicate WellFormed(cfg: Config, sessions: Sessions) {
    Bounded(cfg, sessions) && forall key :: key in sessions ==> Alternating(sessions[key])
  }

  /** The oldest retained entry is a user question exactly when an even number
      of entries is retained. */
  lemma OldestRole(h: seq<Turn>)
    requires Alternating(h) && h != []
    ensures h[0].role == User <==> |h| % 2 == 0
  {
    assert h[0].role == RoleFromEnd(|h|);
  }

  /** One successful exchange keeps a history alternating. */
  lemma {:induction false} RecordAlternates(h: seq<Turn>, question: string, answer: string, n: nat)
    requires |h| <= n && Alternating(h)
    ensures Alternating(Record(h, question, answer, n))
  {
    var grown := h + [Turn(User, question), Turn(Assistant, answer)];
    assert Alternating(grown) by {
      forall i | 0 <= i < |grown| ensures grown[i].role == RoleFromEnd(|grown| - i) {
        if i < |h| {
          assert grown[i] == h[i];
          assert (|grown| - i) % 2 == (|h| - i) % 2;
        }
      }
    }
    var r := Last(grown, n);
    forall i | 0 <= i < |r| ensures r[i].role == RoleFromEnd(|r| - i) {
      assert r[i] == grown[|grown| - |r| + i];
    }
  }

  /** With an odd bound the deque can split a question from its answer: once a
      history fills up, its oldest entry is an assistant answer whose question
      has been evicted. */
  lemma OddBoundOrphansAnswer(h: seq<Turn>, question: string, answer: string, n: nat)
    requires |h| <= n && Alternating(h)
    requires n % 2 == 1 && |h| + 2 >= n
    ensures |Record(h, question, answer, n)| == n
    ensures Record(h, question, answer, n)[0].role == Assistant
  {
    RecordAlternates(h, question, answer, n);
    OldestRole(Record(h, question, answer, n));
  }

  /** The default bound of 5 entries is odd, so under the default
      configuration a history that has seen three exchanges starts with an
      answer whose question is gone. */
  lemma DefaultBoundOrphansAnswer(h: seq<Turn>, question: string, answer: string)
    requires |h| <= DefaultMaxHistory && Alternating(h) && |h| >= 3
    ensures Record(h, question, answer, DefaultMaxHistory)[0].role == Assistant
  {
    OddBoundOrphansAnswer(h, question, answer, DefaultMaxHistory);
  }

  /** With an even bound pairs stay whole: a history that starts on a question
      still does after one more exchange. */
  lemma EvenBoundKeepsPairs(h: seq<Turn>, question: string, answer: string, n: nat)
    requires |h| <= n && Alternating(h)
    requires n % 2 == 0 && |h| % 2 == 0
    ensures |Record(h, question, answer, n)| % 2 == 0
    ensures Record(h, question, answer, n) != [] ==> Record(h, question, answer, n)[0].role == User
  {
    RecordAlternates(h, question, answer, n);
    if Record(h, question, answer, n) != [] {
      OldestRole(Record(h, question, answer, n));
    }
  }

  /** Every request, whatever its outcome, keeps every history bounded and
      alternating. */
  lemma HandleKeepsWellFormed(cfg: Config, sessions: Sessions, credential: Option<string>, body: Body, upstream: Upstream)
    requires WellFormed(cfg, sessions)
    ensures WellFormed(cfg, Handle(cfg, sessions, credential, body, upstream).sessions)
  {
    var x := Handle(cfg, sessions, credential, body, upstream);
    forall k | k in x.sessions ensures Alternating(x.sessions[k]) {
      if !Admitted(cfg, credential, body) {
        assert x.sessions == sessions;
      } else if k != credential.value {
        assert x.sessions[k] == sessions[k];
      } else {
        var h := HistoryOf(sessions, k);
        assert Alternating(h);
        if upstream.Responded? && upstream.status == OK {
          RecordAlternates(h, Strip(body.fields["question"]), upstream.body.content, cfg.maxHistory);
        }
      }
    }
  }

  /* ---------------- many requests ---------------- */

  /** The entries a run of successful exchanges appends, oldest first. */
  function Transcript(exchanges: seq<(string, string)>): (t: seq<Turn>)
    ensures |t| == 2 * |exchanges|
  {
    if exchanges == [] then []
    else [Turn(User, exchanges[0].0), Turn(Assistant, exchanges[0].1)] + Transcript(exchanges[1..])
  }

  /** The history after a run of successful (question, answer) exchanges. */
  function Replay(h: seq<Turn>, exchanges: seq<(string, string)>, n: nat): (r: seq<Turn>)
    requires |h| <= n
    ensures |r| <= n
    decreases |exchanges|
  {
    if exchanges == [] then h
    else Replay(Record(h, exchanges[0].0, exchanges[0].1, n), exchanges[1..], n)
  }

  /** A run of successful exchanges is the run of deque appends of its
      transcript: each exchange appends its question, then its answer. */
  lemma {:induction false} ReplayIsAppendAll(h: seq<Turn>, exchanges: seq<(string, string)>, n: nat)
    requires |h| <= n
    ensures Replay(h, exchanges, n) == AppendAll(h, Transcript(exchanges), n)
    decreases |exchanges|
  {
    if exchanges != [] {
      var u, a := Turn(User, exchanges[0].0), Turn(Assistant, exchanges[0].1);
      var rest := Transcript(exchanges[1..]);
      var t := Transcript(exchanges);
      assert t == [u, a] + rest;
      assert t[0] == u && t[1..] == [a] + rest;
      assert ([a] + rest)[0] == a && ([a] + rest)[1..] == rest;
      ReplayIsAppendAll(Record(h, exchanges[0].0, exchanges[0].1, n), exchanges[1..], n);
    }
  }

  /** After any number of successful exchanges a history holds exactly the
      most recent `n` entries of everything ever recorded, in order. */
  lemma ReplayKeepsMostRecent(h: seq<Turn>, exchanges: seq<(string, string)>, n: nat)
    requires |h| <= n
    ensures Replay(h, exchanges, n) == Last(h + Transcript(exchanges), n)
  {
    ReplayIsAppendAll(h, exchanges, n);
    AppendAllKeepsLast(h, Transcript(exchanges), n);
  }

  /* ---------------- isolation between credentials ---------------- */

  /** What one credential sees and gets depends only on its own history: two
      tables that agree on that key give the same response, the same upstream
      request and the same new history for it. */
  lemma SessionsAreIsolated(cfg: Config, s1: Sessions, s2: Sessions, key: string, body: Body, upstream: Upstream)
    requires Bounded(cfg, s1) && Bounded(cfg, s2)
    requires HistoryOf(s1, key) == HistoryOf(s2, key)
    ensures Handle(cfg, s1, Some(key), body, upstream).response == Handle(cfg, s2, Some(key), body, upstream).response
    ensures Handle(cfg, s1, Some(key), body, upstream).sent == Handle(cfg, s2, Some(key), body, upstream).sent
    ensures HistoryOf(Handle(cfg, s1, Some(key), body, upstream).sessions, key)
         == HistoryOf(Handle(cfg, s2, Some(key), body, upstream).sessions, key)
  {
  }

  /** A request never changes what another credential sees. */
  lemma OthersSeeNoChange(cfg: Config, sessions: Sessions, credential: Option<string>, body: Body, upstream: Upstream, other: string)
    requires Bounded(cfg, sessions)
    requires credential != Some(other)
    ensures HistoryOf(Handle(cfg, sessions, credential, body, upstream).sessions, other) == HistoryOf(sessions, other)
  {
  }

  /** A non-200 upstream status ends the request the same way whatever body
      came with it. */
  lemma FailureIgnoresUpstreamBody(cfg: Config, sessions: Sessions, credential: Option<string>, body: Body,
                                   status: int, c1: Completion, c2: Completion)
    requires Bounded(cfg, sessions) && status != OK
    ensures Handle(cfg, sessions, credential, body, Responded(status, c1))
         == Handle(cfg, sessions, credential, body, Responded(status, c2))
  {
  }

  /* ---------------- worked examples ---------------- */

  /** A first request that fails upstream still leaves an empty session behind
      for its credential. */
  lemma FailedFirstRequestOpensEmptySession(cfg: Config, key: string, question: string, status: int, c: Completion)
    requires key in cfg.validKeys && !AllSpace(question) && status != OK
    ensures Handle(cfg, map[], Some(key), Object(map["question" := question]), Responded(status, c)).sessions
         == map[key := []]
  {
  }

  /** A non-empty question without surrounding whitespace is its own
      stripped form, and is not blank. */
  lemma TrimmedIsStripped(q: string)
    requires Trimmed(q) && q != []
    ensures Strip(q) == q && !AllSpace(q)
  {
    assert q == [] + q + [];
    StripRecoversCore([], q, []);
  }

  /** A successful request by `key` asking `question`, answered with `answer`. */
  function Ask(cfg: Config, sessions: Sessions, key: string, question: string, answer: string): Exchange
    requires Bounded(cfg, sessions)
  {
    Handle(cfg, sessions, Some(key), Object(map["question" := question]), Responded(OK, Completion(answer, None, 1)))
  }

  /** One successful exchange with an already trimmed, non-empty question: the question goes
      upstream after the key's history, which then takes on the new pair. */
  lemma AskStep(cfg: Config, sessions: Sessions, key: string, question: string, answer: string)
    requires Bounded(cfg, sessions) && key in cfg.validKeys
    requires Trimmed(question) && question != []
    ensures Bounded(cfg, Ask(cfg, sessions, key, question, answer).sessions)
    ensures Ask(cfg, sessions, key, question, answer).sent.Some?
    ensures Ask(cfg, sessions, key, question, answer).sent.value.messages
         == Render(HistoryOf(sessions, key)) + [Message("user", question)]
    ensures HistoryOf(Ask(cfg, sessions, key, question, answer).sessions, key)
         == Last(HistoryOf(sessions, key) + [Turn(User, question), Turn(Assistant, answer)], cfg.maxHistory)
  {
    TrimmedIsStripped(question);
    var body := Object(map["question" := question]);
    assert Admitted(cfg, Some(key), body);
  }

  /** Under a bound of two entries, a history holding one pair is replaced by
      the next pair, and only that one pair goes upstream before the question. */
  lemma AskAfterPair(cfg: Config, sessions: Sessions, key: string, q0: string, a0: string, question: string, answer: string)
    requires cfg.maxHistory == 2 && key in cfg.validKeys && Bounded(cfg, sessions)
    requires HistoryOf(sessions, key) == [Turn(User, q0), Turn(Assistant, a0)]
    requires Trimmed(question) && question != []
    ensures Bounded(cfg, Ask(cfg, sessions, key, question, answer).sessions)
    ensures Ask(cfg, sessions, key, question, answer).sent.Some?
    ensures Ask(cfg, sessions, key, question, answer).sent.value.messages
         == [Message("user", q0), Message("assistant", a0), Message("user", question)]
    ensures HistoryOf(Ask(cfg, sessions, key, question, answer).sessions, key)
         == [Turn(User, question), Turn(Assistant, answer)]
  {
    AskStep(cfg, sessions, key, question, answer);
    var h := [Turn(User, q0), Turn(Assistant, a0), Turn(User, question), Turn(Assistant, answer)];
    assert HistoryOf(sessions, key) + [Turn(User, question), Turn(Assistant, answer)] == h;
    assert Last(h, 2) == h[2..];
    assert Render(HistoryOf(sessions, key)) == [Message("user", q0), Message("assistant", a0)];
  }

  /** Three questions in a row under a bound of two entries, as in "A", "B",
      "C": the third request carries only the second exchange and then the new
      question, and afterwards only the third exchange is kept. */
  lemma ThreeQuestionsBoundTwo(cfg: Config, start: Sessions, key: string,
                               qa: string, qb: string, qc: string, aa: string, ab: string, ac: string)
    requires cfg.maxHistory == 2 && key in cfg.validKeys
    requires Bounded(cfg, start) && key !in start
    requires Trimmed(qa) && qa != []
    requires Trimmed(qb) && qb != []
    requires Trimmed(qc) && qc != []
    ensures
      var x1 := Ask(cfg, start, key, qa, aa);
      var x2 := Ask(cfg, x1.sessions, key, qb, ab);
      var x3 := Ask(cfg, x2.sessions, key, qc, ac);
      && x3.sent.Some?
      && x3.sent.value.messages == [Message("user", qb), Message("assistant", ab), Message("user", qc)]
      && HistoryOf(x3.sessions, key) == [Turn(User, qc), Turn(Assistant, ac)]
  {
    AskStep(cfg, start, key, qa, aa);
    var x1 := Ask(cfg, start, key, qa, aa);
    assert HistoryOf(x1.sessions, key) == [Turn(User, qa), Turn(Assistant, aa)];
    AskAfterPair(cfg, x1.sessions, key, qa, aa, qb, ab);
    var x2 := Ask(cfg, x1.sessions, key, qb, ab);
    AskAfterPair(cfg, x2.sessions, key, qb, ab, qc, ac);
  }
}
