/** `process_question`: one turn of Dot. The two calls to the model, the
    execution of a tool, `json.loads` and the clock are inputs: `call` answers a
    request or fails, `run` gives a tool's result, `loads` decodes text, and
    `t0`, `t1`, `t2` are the times of the three accesses to memory. */
module Orchestrator {
  import opened Wrappers
  import opened JsonValue
  import opened Text
  import opened Memory
  import opened ReplyParser
  import opened Tools

  /** How many stored messages go with a question (`history[-10:]`). */
  const SentHistory: nat := 10

  /** How much of the reply is remembered (`[:100]`). */
  const SummaryLength: nat := 100

  /** A content block of a model reply. */
  datatype Block =
    | TextBlock(text: string)
    | ToolUseBlock(name: Json, input: map<string, Json>, id: Json)
    | OtherBlock(kind: string)

  /** `{'type': 'tool_result', 'tool_use_id': id, 'content': json.dumps(result)}` */
  datatype ToolResult = ToolResult(toolUseId: Json, content: Json)

  /** An entry of the `messages` list sent to the model. */
  datatype Turn =
    | Memo(message: Message)
    | AssistantBlocks(blocks: seq<Block>)
    | ToolResults(results: seq<ToolResult>)

  /** What is posted to the model: the client list the system prompt is built
      from, the turns, and whether the tool definitions go along. */
  datatype Request = Request(clientList: string, messages: seq<Turn>, withTools: bool)

  datatype Reply = Reply(stopReason: Json, content: seq<Block>)

  datatype Client = Client(code: string, name: string)

  /** The result of `process_question`: `{'parsed': ...}` or `{'error': ...}`. */
  datatype Answer = Answered(parsed: Json) | Error(message: string)

  /** An answer together with the conversation memory it leaves. */
  datatype Outcome = Outcome(answer: Answer, memory: map<string, Session>)

  /** `', '.join(f"{c['code']} ({c['name']})" for c in clients)` */
  function ClientList(clients: seq<Client>): string
  {
    Join(seq(|clients|, i requires 0 <= i < |clients| => clients[i].code + " (" + clients[i].name + ")"), ", ")
  }

  function Memos(history: seq<Message>): (turns: seq<Turn>)
    ensures |turns| == |history|
    ensures forall i :: 0 <= i < |history| ==> turns[i] == Memo(history[i])
  {
    seq(|history|, i requires 0 <= i < |history| => Memo(history[i]))
  }

  function UserTurn(question: string): Message
  {
    Message(User, Str(question))
  }

  /** The turns of the first request: the recent history and the question. */
  method BuildMessages(history: seq<Message>, question: string) returns (messages: seq<Turn>)
    ensures |messages| == (if |history| > SentHistory then SentHistory else |history|) + 1
    ensures messages == Memos(Recent(history, SentHistory)) + [Memo(UserTurn(question))]
  {
    var start := if |history| > SentHistory then |history| - SentHistory else 0;
    messages := [];
    var i := start;
    while i < |history|
      invariant start <= i <= |history|
      invariant messages == Memos(history[start..i])
    {
      assert history[start..i + 1] == history[start..i] + [history[i]];
      messages := messages + [Memo(history[i])];
      i := i + 1;
    }
    assert history[start..] == Recent(history, SentHistory);
    messages := messages + [Memo(UserTurn(question))];
  }

  /** The text of the first text block, or "" when there is none. */
  function FirstText(blocks: seq<Block>): (text: string)
    ensures (exists i :: 0 <= i < |blocks| && blocks[i].TextBlock? && text == blocks[i].text &&
                         forall j :: 0 <= j < i ==> !blocks[j].TextBlock?) ||
            ((forall i :: 0 <= i < |blocks| ==> !blocks[i].TextBlock?) && text == "")
  {
    if blocks == [] then ""
    else if blocks[0].TextBlock? then blocks[0].text
    else
      var rest := FirstText(blocks[1..]);
      assert forall i :: 1 <= i < |blocks| ==> blocks[i] == blocks[1..][i - 1];
      rest
  }

  /** The loop that picks the reply text. */
  method ExtractText(blocks: seq<Block>) returns (text: string)
    ensures text == FirstText(blocks)
  {
    text := "";
    var i := 0;
    while i < |blocks|
      invariant i <= |blocks|
      invariant FirstText(blocks[i..]) == FirstText(blocks)
    {
      if blocks[i].TextBlock? {
        text := blocks[i].text;
        return;
      }
      assert blocks[i..][1..] == blocks[i + 1..];
      i := i + 1;
    }
  }

  /** The result of running the tool a `tool_use` block asks for. */
  function ResultFor(b: Block, run: ToolCall -> Json): ToolResult
    requires b.ToolUseBlock?
  {
    ToolResult(b.id, run(Dispatch(b.name, b.input)))
  }

  /** One result per `tool_use` block, in order. */
  function ToolResultsOf(blocks: seq<Block>, run: ToolCall -> Json): (results: seq<ToolResult>)
    ensures |results| <= |blocks|
  {
    if blocks == [] then []
    else
      var b := blocks[|blocks| - 1];
      ToolResultsOf(blocks[..|blocks| - 1], run) + (if b.ToolUseBlock? then [ResultFor(b, run)] else [])
  }

  /** Every tool result answers a `tool_use` block of the reply. */
  lemma {:induction false} ToolResultsSound(blocks: seq<Block>, run: ToolCall -> Json, k: int)
    requires 0 <= k < |ToolResultsOf(blocks, run)|
    ensures exists j :: 0 <= j < |blocks| && blocks[j].ToolUseBlock? &&
                        ToolResultsOf(blocks, run)[k] == ResultFor(blocks[j], run)
  {
    var init := blocks[..|blocks| - 1];
    if k < |ToolResultsOf(init, run)| {
      ToolResultsSound(init, run, k);
      var j :| 0 <= j < |init| && init[j].ToolUseBlock? && ToolResultsOf(init, run)[k] == ResultFor(init[j], run);
      assert blocks[j] == init[j];
    } else {
      assert blocks[|blocks| - 1].ToolUseBlock?;
    }
  }

  /** Every `tool_use` block of the reply is answered. */
  lemma {:induction false} ToolResultsComplete(blocks: seq<Block>, run: ToolCall -> Json, j: int)
    requires 0 <= j < |blocks| && blocks[j].ToolUseBlock?
    ensures ResultFor(blocks[j], run) in ToolResultsOf(blocks, run)
  {
    var init := blocks[..|blocks| - 1];
    if j < |blocks| - 1 {
      assert blocks[j] == init[j];
      ToolResultsComplete(init, run, j);
    }
  }

  /** The loop that runs the tools of a `tool_use` reply. */
  method CollectToolResults(blocks: seq<Block>, run: ToolCall -> Json) returns (results: seq<ToolResult>)
    ensures results == ToolResultsOf(blocks, run)
  {
    results := [];
    var i := 0;
    while i < |blocks|
      invariant i <= |blocks|
      invariant results == ToolResultsOf(blocks[..i], run)
    {
      assert blocks[..i + 1][..i] == blocks[..i];
      if blocks[i].ToolUseBlock? {
        results := results + [ResultFor(blocks[i], run)];
      }
      i := i + 1;
    }
    assert blocks[..i] == blocks;
  }

  /** The request for a question, given the session's history. */
  function FirstRequest(history: seq<Message>, question: string, clients: seq<Client>): Request
  {
    Request(ClientList(clients), Memos(Recent(history, SentHistory)) + [Memo(UserTurn(question))], true)
  }

  /** The content blocks of the final reply: one call, or, when the model asks
      for tools, a second call without tools that carries their results. */
  function Converse(request: Request, call: Request -> Result<Reply, string>, run: ToolCall -> Json): Result<seq<Block>, string>
  {
    match call(request)
    case Failure(e) => Failure(e)
    case Success(reply) =>
      if reply.stopReason == Str("tool_use") then
        var turns := request.messages + [AssistantBlocks(reply.content), ToolResults(ToolResultsOf(reply.content, run))];
        match call(Request(request.clientList, turns, false))
        case Failure(e) => Failure(e)
        case Success(second) => Success(second.content)
      else Success(reply.content)
  }

  /** When the first reply asks for tools, the second request keeps the client
      list, goes without tools, and carries the first request's messages
      followed by the assistant's blocks and the tools' results; the second
      reply's content is the answer whatever its stop reason, so there is one
      tool round at most. */
  lemma ConverseToolRound(request: Request, call: Request -> Result<Reply, string>, run: ToolCall -> Json, reply: Reply)
    requires call(request) == Success(reply) && reply.stopReason == Str("tool_use")
    ensures var second := Request(request.clientList,
                                  request.messages + [AssistantBlocks(reply.content), ToolResults(ToolResultsOf(reply.content, run))],
                                  false);
            (call(second).Failure? ==> Converse(request, call, run) == Failure(call(second).error)) &&
            (call(second).Success? ==> Converse(request, call, run) == Success(call(second).value.content))
  {
  }

  /** Without a tool request the first reply's content is the answer, and a
      failed first call is the conversation's failure. */
  lemma ConverseNoTools(request: Request, call: Request -> Result<Reply, string>, run: ToolCall -> Json)
    ensures call(request).Failure? ==> Converse(request, call, run) == Failure(call(request).error)
    ensures call(request).Success? && call(request).value.stopReason != Str("tool_use") ==>
              Converse(request, call, run) == Success(call(request).value.content)
  {
  }

  /** The conversation only ever sends the first request and one request
      without tools: two API stand-ins that agree on those give the same answer. */
  lemma ConverseCallsOnlyTwice(request: Request, call1: Request -> Result<Reply, string>,
                               call2: Request -> Result<Reply, string>, run: ToolCall -> Json)
    requires call1(request) == call2(request)
    requires forall q: Request :: !q.withTools ==> call1(q) == call2(q)
    ensures Converse(request, call1, run) == Converse(request, call2, run)
  {
  }

  /** `s[:n]` */
  function Take<T>(s: seq<T>, n: nat): (r: seq<T>)
    ensures |r| <= n && r <= s
    ensures |s| <= n ==> r == s
  {
    if |s| <= n then s else s[..n]
  }

  /** `parsed.get('message', '')[:100]`, the part of a decoded reply that is
      remembered: a prefix of its message. A reply that is not an object, or
      whose message cannot be sliced, raises. */
  function Summary(parsed: Json): (r: Result<Json, string>)
    ensures r.Success? <==> parsed.Object? && (GetOr(parsed.fields, "message", Str("")).Str? ||
                                               GetOr(parsed.fields, "message", Str("")).Array?)
    ensures r.Success? ==> (r.value.Str? <==> GetOr(parsed.fields, "message", Str("")).Str?) &&
                           (r.value.Array? <==> GetOr(parsed.fields, "message", Str("")).Array?)
    ensures r.Success? && r.value.Str? ==>
              |r.value.s| <= SummaryLength && r.value.s <= GetOr(parsed.fields, "message", Str("")).s
    ensures r.Success? && r.value.Array? ==>
              |r.value.items| <= SummaryLength && r.value.items <= GetOr(parsed.fields, "message", Str("")).items
  {
    match parsed
    case Object(fields) =>
      (match GetOr(fields, "message", Str(""))
       case Str(s) => Success(Str(Take(s, SummaryLength)))
       case Array(items) => Success(Array(Take(items, SummaryLength)))
       case Null => Failure("'NoneType' object is not subscriptable")
       case Bool(_) => Failure("'bool' object is not subscriptable")
       case Number(_) => Failure("'int' object is not subscriptable")
       case Object(_) => Failure("unhashable type: 'slice'"))
    case Array(_) => Failure("'list' object has no attribute 'get'")
    case Str(_) => Failure("'str' object has no attribute 'get'")
    case Number(_) => Failure("'int' object has no attribute 'get'")
    case Bool(_) => Failure("'bool' object has no attribute 'get'")
    case Null => Failure("'NoneType' object has no attribute 'get'")
  }

  /** `{'message': raw, 'jobs': None, 'nextPrompt': None}` */
  function Fallback(raw: string): (j: Json)
    ensures j.Object? && Truthy(j)
    ensures "message" in j.fields && j.fields["message"] == Str(raw)
    ensures "jobs" in j.fields && j.fields["jobs"] == Null
    ensures "nextPrompt" in j.fields && j.fields["nextPrompt"] == Null
  {
    assert "message"[0] != "jobs"[0] && "message"[0] != "nextPrompt"[0] && "jobs"[0] != "nextPrompt"[0];
    var fields := map["message" := Str(raw), "jobs" := Null, "nextPrompt" := Null];
    assert "message" in fields;
    Object(fields)
  }

  /** What memory and the answer become once the reply text `raw` is known and
      decoded to `parsed`, from the memory `m0` read at the start of the turn:
      the question is remembered first, then the reply's summary, or the raw
      text when nothing decoded. */
  function Remember(m0: map<string, Session>, sid: string, question: string, raw: string,
                    parsed: Option<Json>, t1: int, t2: int): Outcome
  {
    var m1 := AfterAdd(m0, sid, UserTurn(question), t1);
    if parsed.Some? && Truthy(parsed.value) then
      match Summary(parsed.value)
      case Failure(e) => Outcome(Error(e), m1)
      case Success(s) => Outcome(Answered(parsed.value), AfterAdd(m1, sid, Message(Assistant, s), t2))
    else
      Outcome(Answered(Fallback(raw)), AfterAdd(m1, sid, Message(Assistant, Str(Take(raw, SummaryLength))), t2))
  }

  /** The answer and the memory `process_question` leaves, as a function of the
      memory it starts from and its inputs. */
  function Respond(m: map<string, Session>, question: string, clients: seq<Client>, sid: string,
                   configured: bool, call: Request -> Result<Reply, string>, run: ToolCall -> Json,
                   loads: string -> Option<Json>, t0: int, t1: int, t2: int): Outcome
  {
    if question == [] then Outcome(Error("No question provided"), m)
    else if !configured then Outcome(Error("Anthropic API not configured"), m)
    else
      var m0 := Access(m, sid, t0);
      match Converse(FirstRequest(m0[sid].messages, question, clients), call, run)
      case Failure(e) => Outcome(Error(e), m0)
      case Success(blocks) =>
        var raw := FirstText(blocks);
        Remember(m0, sid, question, raw, ParseResponse(raw, loads), t1, t2)
  }

  /** A question sent and answered by the model ends in `Remember`. */
  lemma RespondRemembers(m: map<string, Session>, question: string, clients: seq<Client>, sid: string,
                         call: Request -> Result<Reply, string>, run: ToolCall -> Json,
                         loads: string -> Option<Json>, t0: int, t1: int, t2: int)
    requires question != []
    requires Converse(FirstRequest(Access(m, sid, t0)[sid].messages, question, clients), call, run).Success?
    ensures var raw := FirstText(Converse(FirstRequest(Access(m, sid, t0)[sid].messages, question, clients), call, run).value);
            Respond(m, question, clients, sid, true, call, run, loads, t0, t1, t2) ==
            Remember(Access(m, sid, t0), sid, question, raw, ParseResponse(raw, loads), t1, t2)
  {
  }

  /** `process_question(question, clients, session_id)` on the memory `store`. */
  method ProcessQuestion(store: ConversationStore, question: string, clients: seq<Client>, sid: string,
                         configured: bool, call: Request -> Result<Reply, string>, run: ToolCall -> Json,
                         loads: string -> Option<Json>, t0: int, t1: int, t2: int) returns (answer: Answer)
    requires store.Valid()
    modifies store
    ensures store.Valid()
    ensures Outcome(answer, store.conversations) ==
            Respond(old(store.conversations), question, clients, sid, configured, call, run, loads, t0, t1, t2)
  {
    if question == [] {
      return Error("No question provided");
    }
    if !configured {
      return Error("Anthropic API not configured");
    }
    var conv := store.GetConversation(sid, t0);
    var messages := BuildMessages(conv.messages, question);
    var request := Request(ClientList(clients), messages, true);
    var response := call(request);
    if response.Failure? {
      return Error(response.error);
    }
    var blocks := response.value.content;
    if response.value.stopReason == Str("tool_use") {
      var toolResults := CollectToolResults(blocks, run);
      messages := messages + [AssistantBlocks(blocks), ToolResults(toolResults)];
      var second := call(Request(request.clientList, messages, false));
      if second.Failure? {
        return Error(second.error);
      }
      blocks := second.value.content;
    }
    var raw := ExtractText(blocks);
    var parsed := ParseResponse(raw, loads);
    if parsed.Some? && Truthy(parsed.value) {
      store.AddToConversation(sid, User, Str(question), t1);
      var summary := Summary(parsed.value);
      if summary.Failure? {
        return Error(summary.error);
      }
      store.AddToConversation(sid, Assistant, summary.value, t2);
      answer := Answered(parsed.value);
    } else {
      store.AddToConversation(sid, User, Str(question), t1);
      store.AddToConversation(sid, Assistant, Str(Take(raw, SummaryLength)), t2);
      answer := Answered(Fallback(raw));
    }
  }

  /** An empty question is refused before memory is read, so no session is
      swept or touched. */
  lemma EmptyQuestionLeavesMemory(m: map<string, Session>, clients: seq<Client>, sid: string,
                                  configured: bool, call: Request -> Result<Reply, string>, run: ToolCall -> Json,
                                  loads: string -> Option<Json>, t0: int, t1: int, t2: int)
    ensures Respond(m, "", clients, sid, configured, call, run, loads, t0, t1, t2) ==
            Outcome(Error("No question provided"), m)
  {
  }

  /** When the model cannot be reached, the answer is an error, yet memory has
      been swept and the session touched. */
  lemma FailedCallTouchesSession(m: map<string, Session>, question: string, clients: seq<Client>, sid: string,
                                 call: Request -> Result<Reply, string>, run: ToolCall -> Json,
                                 loads: string -> Option<Json>, t0: int, t1: int, t2: int)
    requires question != []
    requires call(FirstRequest(Access(m, sid, t0)[sid].messages, question, clients)).Failure?
    ensures var o := Respond(m, question, clients, sid, true, call, run, loads, t0, t1, t2);
            o.answer.Error? && o.memory == Access(m, sid, t0)
  {
  }

  /** Once the reply is known, an answered turn adds exactly the question and
      one assistant message of at most 100 characters (or items) to the
      session, keeping the 20 most recent, provided no access in between comes
      after the session's timeout. */
  lemma RememberAddsTwo(m0: map<string, Session>, sid: string, question: string, raw: string,
                        parsed: Option<Json>, t1: int, t2: int)
    requires sid in m0 && t1 - m0[sid].lastActive <= SessionTimeout && t2 - t1 <= SessionTimeout
    requires Remember(m0, sid, question, raw, parsed, t1, t2).answer.Answered?
    ensures var o := Remember(m0, sid, question, raw, parsed, t1, t2);
            sid in o.memory &&
            exists reply: Json ::
              o.memory[sid].messages == Recent(m0[sid].messages + [UserTurn(question), Message(Assistant, reply)], MaxMessages) &&
              ((reply.Str? && |reply.s| <= SummaryLength) || (reply.Array? && |reply.items| <= SummaryLength))
  {
    var h := m0[sid].messages;
    var m1 := AfterAdd(m0, sid, UserTurn(question), t1);
    var reply := if parsed.Some? && Truthy(parsed.value) then Summary(parsed.value).value
                 else Str(Take(raw, SummaryLength));
    var assistant := Message(Assistant, reply);
    assert Remember(m0, sid, question, raw, parsed, t1, t2).memory == AfterAdd(m1, sid, assistant, t2);
    assert (reply.Str? && |reply.s| <= SummaryLength) || (reply.Array? && |reply.items| <= SummaryLength);
    AddToLive(m0, sid, UserTurn(question), t1);
    AddToLive(m1, sid, assistant, t2);
    RecentAppend(h + [UserTurn(question)], [assistant], MaxMessages);
    SnocTwice(h, UserTurn(question), assistant);
  }

  lemma SnocTwice<T>(h: seq<T>, a: T, b: T)
    ensures h + [a] + [b] == h + [a, b]
  {
  }

  /** Appending to a session that is still live keeps its history. */
  lemma AddToLive(m: map<string, Session>, sid: string, msg: Message, now: int)
    requires sid in m && now - m[sid].lastActive <= SessionTimeout
    ensures AfterAdd(m, sid, msg, now)[sid].messages == Recent(m[sid].messages + [msg], MaxMessages)
    ensures AfterAdd(m, sid, msg, now)[sid].lastActive == now
  {
    AfterAddMessages(m, sid, msg, now);
  }

  /** Appending to a session that has expired starts it afresh. */
  lemma AddToExpired(m: map<string, Session>, sid: string, msg: Message, now: int)
    requires sid in m && now - m[sid].lastActive > SessionTimeout
    ensures AfterAdd(m, sid, msg, now)[sid].messages == [msg]
  {
    assert Access(m, sid, now)[sid].messages == [];
  }

  /** The assistant message `Remember` stores for a reply that is answered. */
  function StoredReply(raw: string, parsed: Option<Json>): Json
  {
    if parsed.Some? && Truthy(parsed.value) && Summary(parsed.value).Success? then Summary(parsed.value).value
    else Str(Take(raw, SummaryLength))
  }

  /** An answered turn stores the question at `t1` and then the reply at `t2`. */
  lemma RememberStores(m0: map<string, Session>, sid: string, question: string, raw: string,
                       parsed: Option<Json>, t1: int, t2: int)
    requires Remember(m0, sid, question, raw, parsed, t1, t2).answer.Answered?
    ensures Remember(m0, sid, question, raw, parsed, t1, t2).memory ==
            AfterAdd(AfterAdd(m0, sid, UserTurn(question), t1), sid, Message(Assistant, StoredReply(raw, parsed)), t2)
  {
  }

  /** Two stores more than 1800 s apart: the second finds the session expired. */
  lemma IdleStores(m0: map<string, Session>, sid: string, first: Message, second: Message, t1: int, t2: int)
    requires t2 - t1 > SessionTimeout
    ensures AfterAdd(AfterAdd(m0, sid, first, t1), sid, second, t2)[sid].messages == [second]
  {
    AddToExpired(AfterAdd(m0, sid, first, t1), sid, second, t2);
  }

  /** A first store that finds the session expired, then a second within 1800 s. */
  lemma FreshStores(m0: map<string, Session>, sid: string, first: Message, second: Message, t1: int, t2: int)
    requires sid in m0 && t1 - m0[sid].lastActive > SessionTimeout && t2 - t1 <= SessionTimeout
    ensures AfterAdd(AfterAdd(m0, sid, first, t1), sid, second, t2)[sid].messages == [first, second]
  {
    AddToExpired(m0, sid, first, t1);
    StoreAfterOne(AfterAdd(m0, sid, first, t1), sid, first, second, t2);
  }

  /** A live session holding one message gains a second. */
  lemma StoreAfterOne(m1: map<string, Session>, sid: string, first: Message, second: Message, t2: int)
    requires sid in m1 && m1[sid].messages == [first] && t2 - m1[sid].lastActive <= SessionTimeout
    ensures AfterAdd(m1, sid, second, t2)[sid].messages == [first, second]
  {
    AddToLive(m1, sid, second, t2);
    assert Recent([first] + [second], MaxMessages) == [first, second];
  }

  /** When more than 1800 s pass between storing the question and storing the
      reply, the sweep before the second store deletes the session: only the
      reply is left and the question is lost. */
  lemma RememberAfterIdleReply(m0: map<string, Session>, sid: string, question: string, raw: string,
                               parsed: Option<Json>, t1: int, t2: int)
    requires t2 - t1 > SessionTimeout
    requires Remember(m0, sid, question, raw, parsed, t1, t2).answer.Answered?
    ensures var o := Remember(m0, sid, question, raw, parsed, t1, t2);
            sid in o.memory && o.memory[sid].messages == [Message(Assistant, StoredReply(raw, parsed))]
  {
    RememberStores(m0, sid, question, raw, parsed, t1, t2);
    IdleStores(m0, sid, UserTurn(question), Message(Assistant, StoredReply(raw, parsed)), t1, t2);
  }

  /** When more than 1800 s pass between reading the history and storing the
      question, the history is gone: the session holds the question and the
      reply alone. */
  lemma RememberAfterSlowCall(m0: map<string, Session>, sid: string, question: string, raw: string,
                              parsed: Option<Json>, t1: int, t2: int)
    requires sid in m0 && t1 - m0[sid].lastActive > SessionTimeout && t2 - t1 <= SessionTimeout
    requires Remember(m0, sid, question, raw, parsed, t1, t2).answer.Answered?
    ensures var o := Remember(m0, sid, question, raw, parsed, t1, t2);
            sid in o.memory &&
            o.memory[sid].messages == [UserTurn(question), Message(Assistant, StoredReply(raw, parsed))]
  {
    RememberStores(m0, sid, question, raw, parsed, t1, t2);
    FreshStores(m0, sid, UserTurn(question), Message(Assistant, StoredReply(raw, parsed)), t1, t2);
  }

  /** The whole turn: a model call that takes more than 1800 s drops the
      history the question was sent with. */
  lemma SlowCallDropsHistory(m: map<string, Session>, question: string, clients: seq<Client>, sid: string,
                             call: Request -> Result<Reply, string>, run: ToolCall -> Json,
                             loads: string -> Option<Json>, t0: int, t1: int, t2: int)
    requires t1 - t0 > SessionTimeout && t2 - t1 <= SessionTimeout
    requires Respond(m, question, clients, sid, true, call, run, loads, t0, t1, t2).answer.Answered?
    ensures var o := Respond(m, question, clients, sid, true, call, run, loads, t0, t1, t2);
            sid in o.memory && |o.memory[sid].messages| == 2 &&
            o.memory[sid].messages[0] == UserTurn(question) &&
            o.memory[sid].messages[1].role == Assistant
  {
    var m0 := Access(m, sid, t0);
    var conversed := Converse(FirstRequest(m0[sid].messages, question, clients), call, run);
    assert question != [] && conversed.Success?;
    var raw := FirstText(conversed.value);
    RespondRemembers(m, question, clients, sid, call, run, loads, t0, t1, t2);
    RememberAfterSlowCall(m0, sid, question, raw, ParseResponse(raw, loads), t1, t2);
  }

  /** The whole turn: a gap of more than 1800 s between storing the question
      and storing the reply loses the question and everything before it. */
  lemma SlowReplyLosesQuestion(m: map<string, Session>, question: string, clients: seq<Client>, sid: string,
                               call: Request -> Result<Reply, string>, run: ToolCall -> Json,
                               loads: string -> Option<Json>, t0: int, t1: int, t2: int)
    requires t2 - t1 > SessionTimeout
    requires Respond(m, question, clients, sid, true, call, run, loads, t0, t1, t2).answer.Answered?
    ensures var o := Respond(m, question, clients, sid, true, call, run, loads, t0, t1, t2);
            sid in o.memory && |o.memory[sid].messages| == 1 &&
            o.memory[sid].messages[0].role == Assistant
  {
    var m0 := Access(m, sid, t0);
    var conversed := Converse(FirstRequest(m0[sid].messages, question, clients), call, run);
    assert question != [] && conversed.Success?;
    var raw := FirstText(conversed.value);
    RespondRemembers(m, question, clients, sid, call, run, loads, t0, t1, t2);
    RememberAfterIdleReply(m0, sid, question, raw, ParseResponse(raw, loads), t1, t2);
  }

  /** Whenever a turn is answered, memory gains exactly the user's question and
      one assistant message of at most 100 characters (or items), after the
      history the question was sent with, keeping the 20 most recent. */
  lemma AnsweredTurnAddsTwo(m: map<string, Session>, question: string, clients: seq<Client>, sid: string,
                            call: Request -> Result<Reply, string>, run: ToolCall -> Json,
                            loads: string -> Option<Json>, t0: int, t1: int, t2: int)
    requires t1 - t0 <= SessionTimeout && t2 - t1 <= SessionTimeout
    requires Respond(m, question, clients, sid, true, call, run, loads, t0, t1, t2).answer.Answered?
    ensures var o := Respond(m, question, clients, sid, true, call, run, loads, t0, t1, t2);
            var h := Access(m, sid, t0)[sid].messages;
            sid in o.memory &&
            exists reply: Json ::
              o.memory[sid].messages == Recent(h + [UserTurn(question), Message(Assistant, reply)], MaxMessages) &&
              ((reply.Str? && |reply.s| <= SummaryLength) || (reply.Array? && |reply.items| <= SummaryLength))
  {
    var m0 := Access(m, sid, t0);
    var conversed := Converse(FirstRequest(m0[sid].messages, question, clients), call, run);
    assert question != [] && conversed.Success?;
    var raw := FirstText(conversed.value);
    RespondRemembers(m, question, clients, sid, call, run, loads, t0, t1, t2);
    RememberAddsTwo(m0, sid, question, raw, ParseResponse(raw, loads), t1, t2);
  }

  /** When no try decodes the reply (or it decodes to a false value), the raw
      text is returned as the message with no jobs and no next prompt, and its
      first 100 characters are remembered after the question. */
  lemma UnparsedReplyFallsBack(m0: map<string, Session>, sid: string, question: string, raw: string,
                               parsed: Option<Json>, t1: int, t2: int)
    requires parsed.None? || !Truthy(parsed.value)
    ensures var o := Remember(m0, sid, question, raw, parsed, t1, t2);
            o.answer == Answered(Fallback(raw)) &&
            o.memory == AfterAdd(AfterAdd(m0, sid, UserTurn(question), t1),
                                 sid, Message(Assistant, Str(Take(raw, SummaryLength))), t2)
  {
    assert Remember(m0, sid, question, raw, parsed, t1, t2).answer == Answered(Fallback(raw));
    assert StoredReply(raw, parsed) == Str(Take(raw, SummaryLength));
    RememberStores(m0, sid, question, raw, parsed, t1, t2);
  }

  /** A reply that decodes to a true value other than an object, such as `42`,
      is an error, but the question has already been remembered: memory keeps
      the user's turn without an assistant turn. */
  lemma NonObjectReplyKeepsOnlyQuestion(m0: map<string, Session>, sid: string, question: string, raw: string,
                                        parsed: Option<Json>, t1: int, t2: int)
    requires parsed.Some? && Truthy(parsed.value) && !parsed.value.Object?
    ensures var o := Remember(m0, sid, question, raw, parsed, t1, t2);
            o.answer.Error? &&
            o.memory == AfterAdd(m0, sid, UserTurn(question), t1) &&
            o.memory[sid].messages[|o.memory[sid].messages| - 1] == UserTurn(question)
  {
  }

  /** Only the ten most recent messages go with a question: two histories that
      end alike send the same request. */
  lemma OlderHistoryIgnored(h1: seq<Message>, h2: seq<Message>, question: string, clients: seq<Client>)
    requires |h1| >= SentHistory && |h2| >= SentHistory
    requires h1[|h1| - SentHistory..] == h2[|h2| - SentHistory..]
    ensures FirstRequest(h1, question, clients) == FirstRequest(h2, question, clients)
  {
  }
}
