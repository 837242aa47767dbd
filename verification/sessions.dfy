/** The in-memory chat history store of `sessionService`: one module-level map
    from session id to the messages of that session, oldest first. Every
    operation is a pure function from the old map to the new map and the
    value the service returns. */
module Sessions {
  import opened Optional

  /** `ChatMessage['role']`. */
  datatype Role = User | Assistant | System

  /** `ChatMessage`: who said it and what was said. */
  datatype ChatMessage = ChatMessage(role: Role, content: string)

  type History = seq<ChatMessage>

  /** The `sessions` map. */
  type Store = map<string, History>

  /** `createSession`: maps `id` to an empty history, replacing any history it
      had, and returns `id`. */
  function CreateSession(store: Store, id: string): (r: (Store, string))
    ensures r.1 == id
    ensures id in r.0 && r.0[id] == []
    ensures r.0.Keys == store.Keys + {id}
    ensures forall k :: k in store && k != id ==> r.0[k] == store[k]
  {
    (store[id := []], id)
  }

  /** `addMessage`: appends `m` to the history of an existing session (an
      empty history counts as existing) and returns the new history; for an
      unknown id it returns `null` and changes nothing. */
  function AddMessage(store: Store, id: string, m: ChatMessage): (r: (Store, Option<History>))
    ensures id in store <==> r.1.Some?
    ensures id in store ==> id in r.0 && r.1.value == store[id] + [m] && r.0[id] == r.1.value
    ensures id !in store ==> r.0 == store
    ensures r.0.Keys == store.Keys
    ensures forall k :: k in store && k != id ==> r.0[k] == store[k]
  {
    match GetSession(store, id)
    case None => (store, None)
    case Some(history) =>
      var grown := history + [m];
      (store[id := grown], Some(grown))
  }

  /** `getSession`: the stored history, or `undefined` when there is none. */
  function GetSession(store: Store, id: string): (r: Option<History>)
    ensures r.Some? <==> id in store
    ensures r.Some? ==> r.value == store[id]
  {
    if id in store then Some(store[id]) else None
  }

  /** `endSession`: removes `id` and reports whether it was there. */
  function EndSession(store: Store, id: string): (r: (Store, bool))
    ensures r.1 <==> id in store
    ensures r.0.Keys == store.Keys - {id}
    ensures forall k :: k in r.0 ==> r.0[k] == store[k]
  {
    (store - {id}, id in store)
  }

  /** The store after `addMessage(id, m)` for each `m` of `ms`, in order. */
  function AddAll(store: Store, id: string, ms: seq<ChatMessage>): Store
    decreases |ms|
  {
    if |ms| == 0 then store
    else AddMessage(AddAll(store, id, ms[..|ms| - 1]), id, ms[|ms| - 1]).0
  }

  /** A freshly created session reads back empty. */
  lemma CreateThenGet(store: Store, id: string)
    ensures GetSession(CreateSession(store, id).0, id) == Some([])
  {
  }

  /** What `addMessage` returns is what `getSession` reads back afterwards. */
  lemma AddThenGet(store: Store, id: string, m: ChatMessage)
    requires id in store
    ensures var r := AddMessage(store, id, m);
      GetSession(r.0, id) == r.1 == Some(store[id] + [m])
  {
  }

  /** An ended session is gone: it reads back absent and later messages to it
      are refused. */
  lemma EndThenGet(store: Store, id: string, m: ChatMessage)
    ensures var s := EndSession(store, id).0;
      GetSession(s, id).None? && AddMessage(s, id, m) == (s, None)
  {
  }

  /** Ending a session that was just created succeeds and leaves every other
      session as it was. */
  lemma CreateThenEnd(store: Store, id: string)
    ensures EndSession(CreateSession(store, id).0, id) == (store - {id}, true)
  {
    var s := CreateSession(store, id).0;
    assert s - {id} == store - {id};
    assert EndSession(s, id).1;
  }

  /** Operations on one session never change what another session reads. */
  lemma OthersUntouched(store: Store, id: string, other: string, m: ChatMessage)
    requires other != id
    ensures GetSession(CreateSession(store, id).0, other) == GetSession(store, other)
    ensures GetSession(AddMessage(store, id, m).0, other) == GetSession(store, other)
    ensures GetSession(EndSession(store, id).0, other) == GetSession(store, other)
  {
  }

  /** A conversation: appending messages one at a time to an existing session
      leaves its history as the old history followed by those messages, in
      order, and no other session changes. */
  lemma {:induction false} ConversationHistory(store: Store, id: string, ms: seq<ChatMessage>)
    requires id in store
    ensures var s := AddAll(store, id, ms);
      GetSession(s, id) == Some(store[id] + ms)
      && s.Keys == store.Keys
      && forall k :: k in store && k != id ==> s[k] == store[k]
    decreases |ms|
  {
    if |ms| == 0 {
      assert store[id] + ms == store[id];
    } else {
      var init := ms[..|ms| - 1];
      var last := ms[|ms| - 1];
      ConversationHistory(store, id, init);
      var before := AddAll(store, id, init);
      assert id in before && before[id] == store[id] + init;
      assert AddAll(store, id, ms) == AddMessage(before, id, last).0;
      assert ms == init + [last];
      assert store[id] + init + [last] == store[id] + ms;
      assert AddMessage(before, id, last).0[id] == store[id] + ms;
    }
  }
}
