# pitch-perfect backend core, modelled in Dafny

This project models three pieces of the pitch-perfect backend:

- the per-connection WebSocket relay between a browser and the OpenAI realtime API (`OpenAIRelayServer.connectionHandler`);
- the in-memory chat session store (`sessionService`);
- the two pure decisions of the chat controller: the opening system prompt for an assistant mode (`GenerateInitialPrompt`) and the prompt-presence check of `handleChatRequest`.

## Files

- `optional.dfy`: module `Optional`. It holds `Option`, which stands for `undefined`/`null` results and for exceptions caught by a `try`.
- `relay_server.dfy`: module `RelayServer`. One connection is a state machine driven by a trace of inputs: `ClientMsg(raw)`, `ConnectOk`, `ConnectFail`, `UpstreamEvent(e)`, `UpstreamClose` and `ClientClose`.
  - The state holds the dial progress, `client.isConnected()`, the raw `messageQueue`, the log of events sent upstream, the log of `ws.send` calls on the browser socket, and the two close flags.
  - `JSON.parse` plus the read of `event.type` is the parameter `parse: string -> Option<Ev>`. `None` means the handler's `try` threw.
  - `JSON.stringify` is the parameter `encode`.
  - The URL parser is the parameter `pathnameOf`.
- `relay_properties.dfy`: module `RelayProperties`. These are the trace-level guarantees, including the ordering theorem: for every trace, what was sent upstream followed by what the queue still yields equals the parsed client messages in arrival order (`ArrivalOrder`).
- `sessions.dfy`: module `Sessions`. The session map is `map<string, seq<ChatMessage>>`, and each operation is a pure function returning the new map and the service's return value.
- `chat_controller.dfy`: module `ChatController`. It holds the prompt constants, `InitialPrompt`, and `CheckPrompt` over a JSON request body.

The relay's behaviour, as the code has it:

- There is no closed state. After either side closes, the handlers stay registered and no guard stops further I/O.
- Client messages are queued raw. They are parsed only when the queue is drained or, once connected, when they arrive. A malformed message that arrives while connecting therefore sits in the queue and is dropped at drain time.
- A browser close during the dial does not stop it: `client.disconnect()` has no socket to close yet. A later successful connect still drains the queue upstream (`RelayProperties.NoGuardAfterClose`).
- Both close events set `connected` to false, because the realtime client drops its socket on either close. A client message that arrives after a close following a successful connect is therefore queued and never sent (`RelayProperties.NothingSentAfterLateClose`).
- The await of `client.connect()` settles once. A second `ConnectOk` or `ConnectFail` is ignored.
- The flag `upstreamDisconnected` records that `client.disconnect()` was called or that the upstream dispatched `close`. It does not mean the upstream can no longer connect.

## Model

| member | source | states |
|---|---|---|
| `RelayServer.Accept` | backend/src/lib/OpenAIRelayServer.ts:36-52 | A missing URL, an empty URL (`!req.url` holds for both), or a pathname other than exactly `/stream` gives a closed socket with no upstream client. Any other request gives a fresh, dialling, unconnected session with empty queue and logs. |
| `RelayServer.Forward` | backend/src/lib/OpenAIRelayServer.ts:65-74 | The message handler appends to the upstream log exactly what parsing the one raw message yields: its event, or nothing when parsing fails. |
| `RelayServer.Drain` | backend/src/lib/OpenAIRelayServer.ts:96-99 | Shifting the queue front-to-back through the handler appends exactly the parsed queue contents, in queue order. |
| `RelayServer.Step` | backend/src/lib/OpenAIRelayServer.ts:55-99 | Each handler run keeps the connection invariant: connected implies the dial succeeded and the queue is empty; nothing is sent before success; a failed dial has closed the socket. Close flags never reset, rejection is permanent, and a failed dial stays failed. |
| `RelayServer.Run` | backend/src/lib/OpenAIRelayServer.ts:36-99 | The same invariant and monotonicity facts hold after any trace of inputs. |
| `RelayProperties.QueuedWhileConnecting` | backend/src/lib/OpenAIRelayServer.ts:77-80 | While not connected, a client message, malformed or not, is appended raw to the end of the queue. Nothing is sent upstream or to the browser, and neither close flag changes. |
| `RelayProperties.ForwardedWhenConnected` | backend/src/lib/OpenAIRelayServer.ts:81-83 | While connected, a client message goes straight through the handler without touching the queue, the browser log or either close flag. |
| `RelayProperties.MalformedDropped` | backend/src/lib/OpenAIRelayServer.ts:65-74 | On a connected relay, a message that fails to parse changes nothing: nothing is sent and neither side is closed. |
| `RelayProperties.MalformedSkipped` | backend/src/lib/OpenAIRelayServer.ts:65-74 | A malformed message between two runs of messages is skipped, and the valid messages on both sides keep their order. |
| `RelayProperties.DrainedOnConnect` | backend/src/lib/OpenAIRelayServer.ts:86-99 | A successful connect marks the relay connected, empties the queue, and sends the parsed queue contents oldest first. Queued messages that fail to parse are dropped there without closing either side or touching the browser log. |
| `RelayProperties.ClosedOnConnectFail` | backend/src/lib/OpenAIRelayServer.ts:86-94 | A failed connect closes the browser socket and leaves the queue unsent. |
| `RelayProperties.CloseIsMutual` | backend/src/lib/OpenAIRelayServer.ts:60-62 | An upstream close closes the browser socket and a browser close calls `client.disconnect()`. Either sets both close flags, clears `connected`, and leaves the logs and queue untouched; repeating it changes nothing. |
| `RelayProperties.ArrivalOrder` | backend/src/lib/OpenAIRelayServer.ts:64-99 | For every trace, the upstream log followed by the parsed queue equals the parsed client messages in arrival order. |
| `RelayProperties.ServerEventsRelayed` | backend/src/lib/OpenAIRelayServer.ts:54-58 | For every trace, the relay calls `ws.send` with each upstream event, encoded, in receipt order, and with nothing else. Once the browser socket is closed these calls reach no one. |
| `RelayProperties.SendsAfterBrowserClose` | backend/src/lib/OpenAIRelayServer.ts:55-62 | When the browser leaves during the dial and the upstream then connects and emits an event, `ws.send` is still called on the closed socket: there is no guard after a close. |
| `RelayProperties.QueuedUntilReady` | backend/src/lib/OpenAIRelayServer.ts:76-80 | Until a connect succeeds, nothing is sent upstream and the queue holds every client message raw, in arrival order. |
| `RelayProperties.ConnectedIffReady` | backend/src/lib/OpenAIRelayServer.ts:77-99 | On a trace with no failure and no close, the relay is connected exactly when a connect has succeeded. Neither close flag is ever set, so client messages, malformed or not, close nothing. |
| `RelayProperties.ReadyOrder` | backend/src/lib/OpenAIRelayServer.ts:64-99 | After a successful connect on a trace with no failure or close, the upstream log equals the parsed client messages in arrival order, whether each arrived before or after readiness, and the queue is empty. |
| `RelayProperties.QueuedThenLive` | backend/src/lib/OpenAIRelayServer.ts:76-99 | Messages sent before the connect, then messages sent after it, reach the upstream as the parsed early ones followed by the parsed late ones. |
| `RelayProperties.FailedDialSendsNothing` | backend/src/lib/OpenAIRelayServer.ts:86-94 | Once the dial has failed, nothing is ever sent upstream and the browser socket stays closed, whatever follows. |
| `RelayProperties.RejectedIsInert` | backend/src/lib/OpenAIRelayServer.ts:37-50 | A connection rejected for a missing or empty URL or a wrong pathname has its socket closed, has no upstream client, and is unchanged by any later input. |
| `RelayProperties.Scenario` | backend/src/lib/OpenAIRelayServer.ts:64-99 | `a` and `b` arrive while dialling, the dial succeeds, then `c` arrives: the upstream receives the three events once each, in that order. |
| `RelayProperties.NoGuardAfterClose` | backend/src/lib/OpenAIRelayServer.ts:62-99 | A browser close during the dial does not stop a later successful connect: the relay ends connected, with the queued message sent upstream, although both close flags are set. |
| `RelayProperties.NothingSentAfterLateClose` | backend/src/lib/OpenAIRelayServer.ts:60-99 | After a close that follows a successful connect, no later input reconnects the relay or sends anything upstream; later client messages only accumulate in the queue. |
| `Sessions.CreateSession` | backend/src/services/sessionService.ts:7-11 | The id maps to the empty history even if it existed. The id is returned, the key set gains only the id, and every other entry is unchanged. |
| `Sessions.AddMessage` | backend/src/services/sessionService.ts:13-22 | On a known id, even one with an empty history, the history becomes the old one plus the message at the end, and that history is returned. On an unknown id the result is null and the map is unchanged. Keys and other entries are unchanged. |
| `Sessions.GetSession` | backend/src/services/sessionService.ts:24-27 | Returns the stored history exactly when the id is present, and absent otherwise. |
| `Sessions.EndSession` | backend/src/services/sessionService.ts:29-32 | Removes the id and returns true exactly when it was present. Other entries are unchanged. |
| `Sessions.CreateThenGet` | backend/src/services/sessionService.ts:7-27 | A freshly created session reads back as the empty history. |
| `Sessions.AddThenGet` | backend/src/services/sessionService.ts:13-27 | What `addMessage` returns is what `getSession` reads back afterwards: the old history plus the message. |
| `Sessions.EndThenGet` | backend/src/services/sessionService.ts:13-32 | After `endSession`, the id reads back absent and `addMessage` to it returns null without changing the map. |
| `Sessions.CreateThenEnd` | backend/src/services/sessionService.ts:7-32 | Ending a just-created session returns true and leaves the map as it was, minus that id. |
| `Sessions.OthersUntouched` | backend/src/services/sessionService.ts:4-32 | Create, add and end on one id never change what another id reads back. |
| `Sessions.ConversationHistory` | backend/src/services/sessionService.ts:13-22 | Successive `addMessage` calls on an existing session leave its history as the old history followed by the messages in call order. Keys and other sessions are unchanged. |
| `ChatController.InitialPrompt` | backend/src/controllers/chatController.ts:27-39 | The result always ends with the challenge text. |
| `ChatController.KnownModePrompt` | backend/src/controllers/chatController.ts:30-38 | `sales`, `investor` and `coach` each give their own persona followed directly by the challenge text, with no separator. The length is the sum of the two lengths. |
| `ChatController.OtherModePrompt` | backend/src/controllers/chatController.ts:27-38 | Any other mode, including the empty string, gives exactly the challenge text. |
| `ChatController.InitialPromptBySelection` | backend/src/controllers/chatController.ts:27-38 | The prompt depends on the mode string only through which known mode, if any, it names. |
| `ChatController.PromptDeterminesMode` | backend/src/controllers/chatController.ts:27-38 | Two mode strings give the same prompt exactly when they select the same mode or neither selects one. So the three known modes give pairwise distinct prompts, all different from the bare challenge text. |
| `ChatController.CheckPrompt` | backend/src/controllers/chatController.ts:10-24 | The generator is invoked only for an object body with a truthy `prompt`, and with that value. Every other outcome is an error response with status 400 or 500. |
| `ChatController.PromptField` | backend/src/controllers/chatController.ts:12-12 | Destructuring `prompt` from a non-null body yields the object's `prompt` property when present, and `undefined` otherwise. |
| `ChatController.MissingPromptRejected` | backend/src/controllers/chatController.ts:14-16 | An object body whose `prompt` is missing or the empty string gets status 400 "Prompt is required", and the generator is not invoked. |
| `ChatController.GenerateIffTruthyPrompt` | backend/src/controllers/chatController.ts:10-24 | The generator is invoked exactly when the body is an object with a truthy `prompt`. Status 500 comes before any AI call exactly when the body is absent or `null`, because destructuring it throws. |

## Left out

- `OpenAIRelayServer.listen`, the constructor and the HTTP/WebSocket server creation (OpenAIRelayServer.ts:21-34) are transport plumbing.
- URL parsing: the pathname is the result of the parameter `pathnameOf`. A request URL that `new URL` rejects throws inside the async handler, and that path is not modelled.
- `JSON.parse`, the `event.type` read and `JSON.stringify` are the abstract parameters `parse` and `encode`. Their internals belong to the runtime.
- Logging everywhere: it never affects control flow.
- The realtime SDK internals are left out, because the SDK is a foreign library. Its only effects in the model are the `ConnectOk`, `ConnectFail`, `UpstreamEvent` and `UpstreamClose` inputs, plus `connected` turning false on either close. The `session.update` the SDK sends on its own during `connect()` is not in the upstream log, which records only what the relay sends.
- Isolation between connections: each connection is a separate immutable value, so one connection's trace cannot affect another's. No cross-connection lemma is stated.
- A dial timeout and a queue bound: the code has neither.
- `handleChatRequest` after the check is left out because it is an external API call: the awaited `generateAIResponse` call, the 200 reply, and the 500 reply when the call fails. The model stops at the decision to invoke the generator with the prompt value. Note that the code passes that raw value where the generator's signature expects a message list.
- `Sessions.GetSession`: the code returns the very array stored in the map, so a caller's `push` into it changes the store, and a later `addMessage` changes a history the caller already holds. The model returns values, so the returned history is a snapshot.
- `Sessions.AddMessage`: the code returns the very array stored in the map, so a later `addMessage` also changes a history returned earlier. The model returns values, so the returned history is a snapshot.
- JSON numbers are reals, so `NaN` (not a JSON value) is not represented.
- chatRoutes.ts, openaiService.ts, wellSaidService.ts, the authentication, database, model, app and env files, and the frontend are not part of this model. They are plumbing over external services.
