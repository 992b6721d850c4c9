/** Per-session conversation memory: a process-wide dictionary from session id to
    `{messages, last_active}`, swept of idle sessions on every access and capped at
    the twenty most recent messages. */
module Memory {
  import opened JsonValue

  /** Seconds of inactivity after which a session is dropped (30 minutes). */
  const SessionTimeout: int := 30 * 60

  /** Messages kept per session (the last 10 exchanges). */
  const MaxMessages: nat := 20

  datatype Role = User | Assistant

  /** `{'role': role, 'content': content}`; the content is whatever value was stored. */
  datatype Message = Message(role: Role, content: Json)

  /** `{'messages': [...], 'last_active': t}` */
  datatype Session = Session(messages: seq<Message>, lastActive: int)

  predicate Expired(s: Session, now: int)
  {
    now - s.lastActive > SessionTimeout
  }

  /** The sessions still live at `now`. */
  function Sweep(m: map<string, Session>, now: int): (r: map<string, Session>)
    ensures forall k :: k in r <==> k in m && !Expired(m[k], now)
    ensures forall k :: k in r ==> r[k] == m[k]
  {
    map k | k in m && !Expired(m[k], now) :: m[k]
  }

  /** The dictionary after `get_conversation(sid)` at time `now`: every idle session
      is gone, and `sid` is present, touched at `now`, with its old messages if it
      was live and with none if it was absent or expired. */
  function Access(m: map<string, Session>, sid: string, now: int): (r: map<string, Session>)
    ensures sid in r && r[sid].lastActive == now
    ensures sid in m && !Expired(m[sid], now) ==> r[sid].messages == m[sid].messages
    ensures sid !in m || Expired(m[sid], now) ==> r[sid].messages == []
    ensures forall k :: k in r && k != sid ==> k in m && !Expired(m[k], now) && r[k] == m[k]
    ensures forall k :: k in m && !Expired(m[k], now) ==> k in r
  {
    var live := Sweep(m, now);
    if sid in live then live[sid := live[sid].(lastActive := now)]
    else live[sid := Session([], now)]
  }

  /** The last `n` entries of `s`: `s[-n:]` for `n >= 1` (both callers pass a
      positive constant; Python's `s[-0:]` would be all of `s`). */
  function Recent<T>(s: seq<T>, n: nat): (r: seq<T>)
    ensures |r| == if |s| > n then n else |s|
    ensures r == s[|s| - |r|..]
  {
    if |s| > n then s[|s| - n..] else s
  }

  /** The dictionary after `add_to_conversation(sid, role, content)` at time `now`:
      the accessed session gains `msg` as its last message and keeps at most
      `MaxMessages`, the most recent ones in their original order. */
  function AfterAdd(m: map<string, Session>, sid: string, msg: Message, now: int): (r: map<string, Session>)
    ensures sid in r && r[sid].lastActive == now
    ensures 1 <= |r[sid].messages| <= MaxMessages
    ensures r[sid].messages[|r[sid].messages| - 1] == msg
    ensures var h := Access(m, sid, now)[sid].messages + [msg];
            |r[sid].messages| == (if |h| > MaxMessages then MaxMessages else |h|) &&
            r[sid].messages == h[|h| - |r[sid].messages|..]
    ensures forall k :: k != sid ==> (k in r <==> k in Access(m, sid, now))
    ensures forall k :: k in r && k != sid ==> r[k] == Access(m, sid, now)[k]
  {
    var a := Access(m, sid, now);
    a[sid := a[sid].(messages := Recent(a[sid].messages + [msg], MaxMessages))]
  }

  /** Keeping the last `n` and then appending keeps the same as appending first. */
  lemma RecentAppend<T>(s: seq<T>, t: seq<T>, n: nat)
    ensures Recent(Recent(s, n) + t, n) == Recent(s + t, n)
  {
    var u := Recent(s, n);
    if |t| >= n {
      assert (u + t)[|u + t| - n..] == t[|t| - n..];
      assert (s + t)[|s + t| - n..] == t[|t| - n..];
    } else if |s| > n {
      assert u == s[|s| - n..];
      assert (u + t)[|u + t| - n..] == s[|s| - (n - |t|)..] + t;
      assert (s + t)[|s + t| - n..] == s[|s| - (n - |t|)..] + t;
    }
  }

  lemma AfterAddMessages(m: map<string, Session>, sid: string, msg: Message, now: int)
    ensures AfterAdd(m, sid, msg, now)[sid].messages == Recent(Access(m, sid, now)[sid].messages + [msg], MaxMessages)
  {
  }

  /** The dictionary after appending `msgs` to `sid` one at a time, all at `now`. */
  function AddAll(m: map<string, Session>, sid: string, msgs: seq<Message>, now: int): (r: map<string, Session>)
    ensures sid in r && r[sid].lastActive == now
  {
    if msgs == [] then Access(m, sid, now)
    else AfterAdd(AddAll(m, sid, msgs[..|msgs| - 1], now), sid, msgs[|msgs| - 1], now)
  }

  /** However many messages are appended, the session holds the `MaxMessages` most
      recent of its history followed by them, oldest first. */
  lemma {:induction false} AddAllKeepsRecent(m: map<string, Session>, sid: string, msgs: seq<Message>, now: int)
    requires msgs != []
    ensures AddAll(m, sid, msgs, now)[sid].messages == Recent(Access(m, sid, now)[sid].messages + msgs, MaxMessages)
  {
    var h := Access(m, sid, now)[sid].messages;
    var init := msgs[..|msgs| - 1];
    var x := msgs[|msgs| - 1];
    var before := AddAll(m, sid, init, now);
    assert msgs == init + [x];
    var prior := if init == [] then h else Recent(h + init, MaxMessages);
    assert before[sid].messages == prior by {
      if init != [] { AddAllKeepsRecent(m, sid, init, now); }
    }
    assert Access(before, sid, now)[sid].messages == prior;
    AfterAddMessages(before, sid, x, now);
    AppendStep(h, init, x, MaxMessages);
  }

  lemma AppendStep<T>(h: seq<T>, init: seq<T>, x: T, n: nat)
    ensures Recent((if init == [] then h else Recent(h + init, n)) + [x], n) == Recent(h + (init + [x]), n)
  {
    assert h + (init + [x]) == (h + init) + [x];
    if init != [] {
      RecentAppend(h + init, [x], n);
    }
  }

  /** Twenty-one messages appended to a new session leave the last twenty. */
  lemma TwentyOneTurns(m: map<string, Session>, sid: string, msgs: seq<Message>, now: int)
    requires sid !in m
    requires |msgs| == 21
    ensures AddAll(m, sid, msgs, now)[sid].messages == msgs[1..]
  {
    AddAllKeepsRecent(m, sid, msgs, now);
    assert [] + msgs == msgs;
  }

  /** Deleting the expired sessions one by one leaves the sweep. */
  lemma SweepRemovesExpired(m: map<string, Session>, now: int)
    ensures m - (set sid | sid in m && Expired(m[sid], now)) == Sweep(m, now)
  {
    var r := m - (set sid | sid in m && Expired(m[sid], now));
    assert forall k :: k in r <==> k in Sweep(m, now);
  }

  /** The global `conversations` dictionary and the three operations on it. */
  class ConversationStore {
    var conversations: map<string, Session>

    /** No session ever holds more than `MaxMessages` messages. */
    ghost predicate Valid()
      reads this
    {
      forall sid :: sid in conversations ==> |conversations[sid].messages| <= MaxMessages
    }

    constructor ()
      ensures Valid() && conversations == map[]
    {
      conversations := map[];
    }

    /** `get_conversation(session_id)` with `time.time()` passed in as `now`. */
    method GetConversation(sessionId: string, now: int) returns (session: Session)
      requires Valid()
      modifies this
      ensures Valid()
      ensures conversations == Access(old(conversations), sessionId, now)
      ensures session == conversations[sessionId]
    {
      var expired := set sid | sid in conversations && Expired(conversations[sid], now);
      ghost var all := expired;
      while expired != {}
        invariant expired <= all
        invariant conversations == old(conversations) - (all - expired)
        decreases |expired|
      {
        var sid :| sid in expired;
        conversations := conversations - {sid};
        expired := expired - {sid};
      }
      SweepRemovesExpired(old(conversations), now);
      if sessionId !in conversations {
        conversations := conversations[sessionId := Session([], now)];
      } else {
        conversations := conversations[sessionId := conversations[sessionId].(lastActive := now)];
      }
      session := conversations[sessionId];
    }

    /** `add_to_conversation(session_id, role, content)` at time `now`. */
    method AddToConversation(sessionId: string, role: Role, content: Json, now: int)
      requires Valid()
      modifies this
      ensures Valid()
      ensures conversations == AfterAdd(old(conversations), sessionId, Message(role, content), now)
    {
      var session := GetConversation(sessionId, now);
      ghost var accessed := conversations;
      var messages := session.messages + [Message(role, content)];
      if |messages| > MaxMessages {
        messages := messages[|messages| - MaxMessages..];
      }
      assert messages == Recent(session.messages + [Message(role, content)], MaxMessages);
      conversations := conversations[sessionId := session.(messages := messages)];
      assert conversations == accessed[sessionId := accessed[sessionId].(messages := messages)];
    }

    /** `clear_conversation(session_id)`: always succeeds, drops that session if it
        exists and leaves every other session as it was. */
    method ClearConversation(sessionId: string) returns (cleared: bool)
      requires Valid()
      modifies this
      ensures Valid()
      ensures cleared
      ensures conversations == old(conversations) - {sessionId}
    {
      if sessionId in conversations {
        conversations := conversations - {sessionId};
      }
      cleared := true;
    }
  }
}
