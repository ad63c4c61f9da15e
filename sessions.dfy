/** The in-memory conversation table behind `/create_session` and `/chat`:
    a dictionary from session id to the ordered list of turns of that
    conversation, updated in place by the two handlers. */
module Sessions {
  import opened Http

  datatype Role = User | Assistant

  /** One entry of a session's history. The user's turn is sent to the provider
      as a list holding one text part and the assistant's as a plain string;
      both are reduced here to their text. */
  datatype Turn = Turn(role: Role, text: string)

  /** The `sessions` dictionary: session id to history, oldest turn first. */
  type Table = map<string, seq<Turn>>

  /** The body of a `/chat` request. */
  datatype ChatRequest = ChatRequest(sessionId: Option<string>, message: Option<string>)

  /** What the language-model call produced: the text of its first choice, or
      any exception (network, API error, a response without a first choice). */
  datatype ProviderOutcome = Replied(reply: string) | Failed

  /** The three answers `/chat` can give. */
  datatype ChatResponse =
    | Answer(sessionId: string, response: string)  // 200, { sessionId, response }
    | NoMessage                                    // 400, "No message provided"
    | ChatFailed                                   // 500, "An error occurred"

  function ChatStatus(r: ChatResponse): int
  {
    match r
    case Answer(_, _) => StatusOk
    case NoMessage => StatusBadRequest
    case ChatFailed => StatusServerError
  }

  /** The effect of one `/chat` request: the new table, the answer, and the
      history handed to the provider (`None` when the provider is not called). */
  datatype ChatStep = ChatStep(table: Table, response: ChatResponse, prompt: Option<seq<Turn>>)

  // ---------------------------------------------------------------------------
  // Specification of the two handlers
  // ---------------------------------------------------------------------------

  /** The table after `/create_session` has drawn the id `newId`. */
  function Created(t: Table, newId: string): (t': Table)
    ensures t'.Keys == t.Keys + {newId}
    ensures t'[newId] == []
    ensures forall k | k in t && k != newId :: t'[k] == t[k]
    ensures newId !in t ==> |t'| == |t| + 1
  {
    t[newId := []]
  }

  /** The session `/chat` works on: the supplied id when it is truthy (even if
      unknown), otherwise the freshly drawn one. */
  function ResolvedId(sessionId: Option<string>, newId: string): (id: string)
    ensures Present(sessionId) ==> id == sessionId.value
    ensures !Present(sessionId) ==> id == newId
    ensures newId != "" ==> id != ""
  {
    if Present(sessionId) then sessionId.value else newId
  }

  /** The history of the resolved session before the user's turn is added: the
      stored one for a known supplied id, empty otherwise. */
  function PriorHistory(t: Table, sessionId: Option<string>): (h: seq<Turn>)
    ensures h == [] || (sessionId.Some? && sessionId.value in t && h == t[sessionId.value])
    ensures Present(sessionId) && sessionId.value in t ==> h == t[sessionId.value]
    ensures !Present(sessionId) ==> h == []
  {
    if Present(sessionId) && sessionId.value in t then t[sessionId.value] else []
  }

  /** One `/chat` request against table `t`, where `newId` is the id a call to
      uuidv4 would return and `outcome` is what the provider call yields. */
  function ChatTurn(t: Table, req: ChatRequest, newId: string, outcome: ProviderOutcome): (s: ChatStep)
    ensures s.prompt.Some? <==> Present(req.message)
    ensures s.response.Answer? <==> Present(req.message) && outcome.Replied?
    ensures s.response.Answer? ==> s.response.sessionId == ResolvedId(req.sessionId, newId)
    ensures s.table.Keys <= t.Keys + {ResolvedId(req.sessionId, newId)}
  {
    if !Present(req.message) then
      ChatStep(t, NoMessage, None)
    else
      var id := ResolvedId(req.sessionId, newId);
      var sent := PriorHistory(t, req.sessionId) + [Turn(User, req.message.value)];
      match outcome
      case Failed => ChatStep(t[id := sent], ChatFailed, Some(sent))
      case Replied(reply) => ChatStep(t[id := sent + [Turn(Assistant, reply)]], Answer(id, reply), Some(sent))
  }

  // ---------------------------------------------------------------------------
  // The shape every history keeps
  // ---------------------------------------------------------------------------

  /** A history starts with a user turn, and every assistant turn directly
      follows a user turn. Roles need not alternate: two user turns in a row
      are allowed (see FailedReplyLeavesTwoUserTurns). */
  predicate RepliesFollowUserTurns(h: seq<Turn>)
  {
    && (|h| > 0 ==> h[0].role == User)
    && forall i | 0 < i < |h| :: h[i].role == Assistant ==> h[i - 1].role == User
  }

  predicate TableWellFormed(t: Table)
  {
    forall id | id in t :: RepliesFollowUserTurns(t[id])
  }

  lemma AppendUserTurn(h: seq<Turn>, text: string)
    requires RepliesFollowUserTurns(h)
    ensures RepliesFollowUserTurns(h + [Turn(User, text)])
  {
    var h' := h + [Turn(User, text)];
    forall i | 0 < i < |h'| && h'[i].role == Assistant
      ensures h'[i - 1].role == User
    {
      assert h'[i] == h[i] && h'[i - 1] == h[i - 1];
    }
  }

  lemma AppendAssistantTurn(h: seq<Turn>, text: string)
    requires RepliesFollowUserTurns(h)
    requires |h| > 0 && h[|h| - 1].role == User
    ensures RepliesFollowUserTurns(h + [Turn(Assistant, text)])
  {
    var h' := h + [Turn(Assistant, text)];
    forall i | 0 < i < |h'| && h'[i].role == Assistant
      ensures h'[i - 1].role == User
    {
      if i < |h| {
        assert h'[i] == h[i] && h'[i - 1] == h[i - 1];
      } else {
        assert h'[i - 1] == h[|h| - 1];
      }
    }
  }

  // ---------------------------------------------------------------------------
  // Properties of one request
  // ---------------------------------------------------------------------------

  lemma CreatedKeepsWellFormed(t: Table, newId: string)
    requires TableWellFormed(t)
    ensures TableWellFormed(Created(t, newId))
  {
  }

  /** A request without a truthy message is answered 400 before anything is
      touched, and only such a request is. */
  lemma ChatRejectsMissingMessage(t: Table, req: ChatRequest, newId: string, outcome: ProviderOutcome)
    ensures var s := ChatTurn(t, req, newId, outcome);
      (s.response == NoMessage <==> !Present(req.message))
    ensures var s := ChatTurn(t, req, newId, outcome);
      !Present(req.message) ==> s.table == t && s.prompt == None && ChatStatus(s.response) == 400
  {
  }

  /** Without a (truthy) session id, the conversation starts afresh under the
      drawn id, and the provider sees only the new message. */
  lemma ChatWithoutIdStartsFreshSession(t: Table, req: ChatRequest, newId: string, outcome: ProviderOutcome)
    requires Present(req.message) && !Present(req.sessionId)
    ensures var s := ChatTurn(t, req, newId, outcome);
      && newId in s.table
      && s.prompt == Some([Turn(User, req.message.value)])
      && (outcome.Replied? ==> s.response == Answer(newId, outcome.reply))
  {
    assert [] + [Turn(User, req.message.value)] == [Turn(User, req.message.value)];
  }

  /** An unknown supplied id is not replaced: a session is created under that
      exact id, and that id is what the answer carries. */
  lemma ChatWithUnknownIdCreatesThatSession(t: Table, req: ChatRequest, newId: string, outcome: ProviderOutcome)
    requires Present(req.message) && Present(req.sessionId) && req.sessionId.value !in t
    ensures var s := ChatTurn(t, req, newId, outcome);
      && s.table.Keys == t.Keys + {req.sessionId.value}
      && s.prompt == Some([Turn(User, req.message.value)])
      && (outcome.Replied? ==> s.response == Answer(req.sessionId.value, outcome.reply))
  {
    assert [] + [Turn(User, req.message.value)] == [Turn(User, req.message.value)];
  }

  /** A known supplied id continues its conversation: the provider is given the
      stored history followed by the new message. */
  lemma ChatWithKnownIdContinuesHistory(t: Table, req: ChatRequest, newId: string, outcome: ProviderOutcome)
    requires Present(req.message) && Present(req.sessionId) && req.sessionId.value in t
    ensures var s := ChatTurn(t, req, newId, outcome);
      && s.table.Keys == t.Keys
      && s.prompt == Some(t[req.sessionId.value] + [Turn(User, req.message.value)])
  {
  }

  /** The provider is called with the resolved session's whole history, and
      that history ends with the user's message. */
  lemma ChatSendsHistoryEndingInMessage(t: Table, req: ChatRequest, newId: string, outcome: ProviderOutcome)
    requires Present(req.message)
    ensures var s := ChatTurn(t, req, newId, outcome);
      && s.prompt.Some?
      && |s.prompt.value| > 0
      && s.prompt.value[|s.prompt.value| - 1] == Turn(User, req.message.value)
      && s.prompt.value[..|s.prompt.value| - 1] == PriorHistory(t, req.sessionId)
  {
    var s := ChatTurn(t, req, newId, outcome);
    assert s.prompt.value[..|s.prompt.value| - 1] == PriorHistory(t, req.sessionId);
  }

  /** On success exactly one assistant turn holding the reply follows the request's
      user turn, and the answer echoes the resolved id and that reply. */
  lemma ChatAppendsReplyOnSuccess(t: Table, req: ChatRequest, newId: string, reply: string)
    requires Present(req.message)
    ensures var s := ChatTurn(t, req, newId, Replied(reply));
      var id := ResolvedId(req.sessionId, newId);
      && id in s.table
      && s.table[id] == s.prompt.value + [Turn(Assistant, reply)]
      && s.response == Answer(id, reply)
      && ChatStatus(s.response) == 200
  {
  }

  /** On failure the user turn stays (no rollback), no assistant turn is added,
      and the answer is 500. */
  lemma ChatKeepsUserTurnOnFailure(t: Table, req: ChatRequest, newId: string)
    requires Present(req.message)
    ensures var s := ChatTurn(t, req, newId, Failed);
      var id := ResolvedId(req.sessionId, newId);
      && id in s.table
      && s.table[id] == PriorHistory(t, req.sessionId) + [Turn(User, req.message.value)]
      && s.response == ChatFailed
      && ChatStatus(s.response) == 500
  {
  }

  /** Only the resolved session's entry changes, and (unless a drawn id
      collides with an existing one) its history only grows. */
  lemma ChatTouchesOnlyResolvedSession(t: Table, req: ChatRequest, newId: string, outcome: ProviderOutcome)
    requires Present(req.message)
    ensures var s := ChatTurn(t, req, newId, outcome);
      var id := ResolvedId(req.sessionId, newId);
      && s.table.Keys == t.Keys + {id}
      && (forall k | k in t && k != id :: s.table[k] == t[k])
      && (Present(req.sessionId) || newId !in t ==> id in t ==> t[id] < s.table[id])
  {
  }

  lemma ChatKeepsWellFormed(t: Table, req: ChatRequest, newId: string, outcome: ProviderOutcome)
    requires TableWellFormed(t)
    ensures TableWellFormed(ChatTurn(t, req, newId, outcome).table)
  {
    if Present(req.message) {
      var prior := PriorHistory(t, req.sessionId);
      var sent := prior + [Turn(User, req.message.value)];
      AppendUserTurn(prior, req.message.value);
      if outcome.Replied? {
        AppendAssistantTurn(sent, outcome.reply);
      }
    }
  }

  // ---------------------------------------------------------------------------
  // Sequences of requests
  // ---------------------------------------------------------------------------

  /** One handler invocation, with the id uuidv4 would draw and, for `/chat`,
      the provider's outcome. */
  datatype Call =
    | CreateSessionCall(newId: string)
    | ChatCall(request: ChatRequest, newId: string, outcome: ProviderOutcome)

  function Apply(t: Table, c: Call): Table
  {
    match c
    case CreateSessionCall(newId) => Created(t, newId)
    case ChatCall(req, newId, outcome) => ChatTurn(t, req, newId, outcome).table
  }

  /** The table after handling `calls` one after another. */
  function Run(t: Table, calls: seq<Call>): Table
    decreases |calls|
  {
    if calls == [] then t else Run(Apply(t, calls[0]), calls[1..])
  }

  /** The call draws an id (always for `/create_session`; for `/chat` only
      when a message is given without a truthy session id) and that id is new. */
  predicate DrawsNewId(t: Table, c: Call)
  {
    match c
    case CreateSessionCall(newId) => newId !in t
    case ChatCall(req, newId, _) => Present(req.message) && !Present(req.sessionId) ==> newId !in t
  }

  predicate DrawsNewIds(t: Table, calls: seq<Call>)
    decreases |calls|
  {
    calls == [] || (DrawsNewId(t, calls[0]) && DrawsNewIds(Apply(t, calls[0]), calls[1..]))
  }

  /** Every history, whatever requests arrive in sequence, starts with a user
      turn and has each assistant turn right after a user turn. */
  lemma {:induction false} RunKeepsWellFormed(t: Table, calls: seq<Call>)
    requires TableWellFormed(t)
    ensures TableWellFormed(Run(t, calls))
    decreases |calls|
  {
    if calls != [] {
      match calls[0] {
        case CreateSessionCall(newId) => CreatedKeepsWellFormed(t, newId);
        case ChatCall(req, newId, outcome) => ChatKeepsWellFormed(t, req, newId, outcome);
      }
      RunKeepsWellFormed(Apply(t, calls[0]), calls[1..]);
    }
  }

  lemma ApplyOnlyAppends(t: Table, c: Call)
    requires DrawsNewId(t, c)
    ensures t.Keys <= Apply(t, c).Keys
    ensures forall k | k in t :: t[k] <= Apply(t, c)[k]
  {
    match c {
      case CreateSessionCall(newId) =>
      case ChatCall(req, newId, outcome) =>
        if Present(req.message) {
          ChatTouchesOnlyResolvedSession(t, req, newId, outcome);
        }
    }
  }

  /** Sessions are never removed and histories are append-only, as long as
      every drawn id is new. */
  lemma {:induction false} RunOnlyAppends(t: Table, calls: seq<Call>)
    requires DrawsNewIds(t, calls)
    ensures t.Keys <= Run(t, calls).Keys
    ensures forall k | k in t :: t[k] <= Run(t, calls)[k]
    decreases |calls|
  {
    if calls != [] {
      var t1 := Apply(t, calls[0]);
      ApplyOnlyAppends(t, calls[0]);
      RunOnlyAppends(t1, calls[1..]);
      forall k | k in t
        ensures t[k] <= Run(t, calls)[k]
      {
        assert t[k] <= t1[k] && t1[k] <= Run(t1, calls[1..])[k];
      }
    }
  }

  /** Create a session, then two successful chats on it: the history is the two
      messages each followed by its reply. */
  lemma ConversationRoundTrip(t: Table, id: string, f1: string, f2: string, r1: string, r2: string)
    requires id != ""  // a drawn uuid is never empty
    ensures
      var t1 := Created(t, id);
      var s1 := ChatTurn(t1, ChatRequest(Some(id), Some("hello")), f1, Replied(r1));
      var s2 := ChatTurn(s1.table, ChatRequest(Some(id), Some("again")), f2, Replied(r2));
      && s1.response == Answer(id, r1)
      && s2.response == Answer(id, r2)
      && s2.table[id] == [Turn(User, "hello"), Turn(Assistant, r1), Turn(User, "again"), Turn(Assistant, r2)]
  {
    var t1 := Created(t, id);
    var s1 := ChatTurn(t1, ChatRequest(Some(id), Some("hello")), f1, Replied(r1));
    assert s1.table[id] == [Turn(User, "hello"), Turn(Assistant, r1)];
  }

  /** Roles do not alternate: a failed provider call followed by another chat
      leaves two user turns next to each other. */
  lemma FailedReplyLeavesTwoUserTurns(t: Table, id: string, f1: string, f2: string, r: string)
    requires id != ""  // a drawn uuid is never empty
    ensures
      var t1 := Created(t, id);
      var s1 := ChatTurn(t1, ChatRequest(Some(id), Some("hello")), f1, Failed);
      var s2 := ChatTurn(s1.table, ChatRequest(Some(id), Some("again")), f2, Replied(r));
      && s1.response == ChatFailed
      && s2.table[id] == [Turn(User, "hello"), Turn(User, "again"), Turn(Assistant, r)]
      && s2.table[id][0].role == s2.table[id][1].role == User
  {
    var t1 := Created(t, id);
    var s1 := ChatTurn(t1, ChatRequest(Some(id), Some("hello")), f1, Failed);
    assert s1.table[id] == [Turn(User, "hello")];
  }

  // ---------------------------------------------------------------------------
  // The handlers, updating the module-level table in place
  // ---------------------------------------------------------------------------

  class SessionStore {
    /** `const sessions = {}`: session id to history. */
    var sessions: Table

    ghost predicate Valid()
      reads this
    {
      TableWellFormed(sessions)
    }

    constructor ()
      ensures Valid() && sessions == map[]
    {
      sessions := map[];
    }

    /** `GET /create_session`: `newId` is the id uuidv4 returns. */
    method CreateSession(newId: string) returns (sessionId: string)
      requires Valid()
      modifies this
      ensures Valid()
      ensures sessionId == newId && sessionId in sessions && sessions[sessionId] == []
      ensures sessions == Created(old(sessions), newId)
    {
      sessionId := newId;
      sessions := sessions[sessionId := []];
      CreatedKeepsWellFormed(old(sessions), newId);
    }

    /** `POST /chat`. `newId` is the id uuidv4 would return if one is drawn,
        `outcome` what the provider call yields; `prompt` is the message list
        the provider is called with. */
    method Chat(req: ChatRequest, newId: string, outcome: ProviderOutcome)
      returns (response: ChatResponse, prompt: Option<seq<Turn>>)
      requires Valid()
      modifies this
      ensures Valid()
      ensures ChatStep(sessions, response, prompt) == ChatTurn(old(sessions), req, newId, outcome)
    {
      if !Present(req.message) {
        return NoMessage, None;
      }

      var currentSessionId := req.sessionId;
      if !Present(currentSessionId) {
        currentSessionId := Some(newId);
        sessions := sessions[newId := []];
      }
      if currentSessionId.value !in sessions {
        currentSessionId := req.sessionId;
        sessions := sessions[currentSessionId.value := []];
      }
      var id := currentSessionId.value;

      sessions := sessions[id := sessions[id] + [Turn(User, req.message.value)]];
      prompt := Some(sessions[id]);

      match outcome {
        case Failed =>
          response := ChatFailed;
        case Replied(reply) =>
          sessions := sessions[id := sessions[id] + [Turn(Assistant, reply)]];
          response := Answer(id, reply);
      }
      ChatKeepsWellFormed(old(sessions), req, newId, outcome);
    }
  }
}
