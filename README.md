# Client game store of a multiplayer drawing-and-guessing game

This project models the client-side state store of the game (`lib/store.ts`).
The store is one record of ten fields:

- the signed-in `user`;
- the current `gameState`;
- the drawing `strokes`;
- the chat `messages`;
- the `isConnected` flag;
- the preferences `currentTool`, `brushSize`, `brushColor`, `showChat` and `soundEnabled`.

Each named action replaces, appends to, truncates or resets some of these fields.
`partialize` picks the part of the record that is written to persistent storage.

Layout:

- `chat.dfy`, module `Chat`: the message-list update of `addMessage` as pure functions.
  - `HasId` is the duplicate scan (`some`).
  - `SliceFrom` is JavaScript's `slice(start)`.
  - `AddMessage` drops a held id, otherwise appends and keeps the last 100.
  - Lemmas prove: ids stay distinct, a repeated id is stored once, an evicted id is fresh again, and a run of distinct messages leaves its last 100 in order.
- `strokes.dfy`, module `Strokes`: the unbounded append of `addStroke`, and a lemma that repeated appends keep every stroke in order.
- `store.dfy`, module `Store`:
  - the `User`, `Tool`, `StoreState` (every field at one moment) and `Persisted` (the five persisted fields) datatypes;
  - `Partialize`;
  - the class `GameStore`, with the ten fields and one method per action.
  - Every method states the whole new state as an update of `old(Snapshot())`, so each one says which fields it changes and that all others are preserved.
  - The methods that touch no persisted field also state that `Partialize` is unchanged.
  - The class invariant `Valid()` says that the chat history never exceeds 100 entries and never holds two messages with one id. The constructor establishes it and every action preserves it.

`GameState`, `DrawingStroke` and the body of `ChatMessage` are defined in a module that is not part of this model, and the store never looks inside them. They are type parameters `G`, `S` and `P`. Of a chat message only its `id` is modelled.

## Model

| member | source | states |
|---|---|---|
| Chat.HasId | lib/store.ts:80 | true exactly when some held message carries the given id |
| Chat.SliceFrom | lib/store.ts:86 | `slice(start)` yields a suffix; for a negative start its length is `min(-start, length)`, for a non-negative one `length - start` clamped at 0 |
| Chat.AddMessage | lib/store.ts:78-88 | a held id leaves the list unchanged; a fresh one gives the last `min(100, n+1)` entries of `messages ++ [m]`, with `m` last; a list of at most 100 stays at most 100 |
| Chat.AddMessagePreservesDistinct | lib/store.ts:80-86 | if the held ids are pairwise distinct, they still are after `addMessage` |
| Chat.AddMessageHoldsIdOnce | lib/store.ts:80-86 | after `addMessage(m)` exactly one held message has `m`'s id |
| Chat.AddSameIdTwice | lib/store.ts:80-83 | a second message with the same id is dropped; the id is stored once |
| Chat.EvictedIdIsFresh | lib/store.ts:80-86 | in a full window, a fresh message evicts the oldest; that id is then no longer held, and re-sending it is accepted as the newest entry |
| Chat.AddDistinctMessagesKeepsLast | lib/store.ts:85-87 | delivering messages with distinct ids to an empty list leaves exactly the last 100 of them in their original order |
| Strokes.AddStroke | lib/store.ts:73 | the length grows by one, the old strokes are a prefix in order, the new stroke is last |
| Strokes.AddStrokesAppendsAll | lib/store.ts:73 | repeated `addStroke` keeps every stroke in delivery order, with no dedup and no cap |
| Store.Partialize | lib/store.ts:113-119 | the persisted record holds `user`, `soundEnabled`, `currentTool`, `brushSize` and `brushColor` of the state |
| Store.PartializeExactlyFive | lib/store.ts:113-119 | two states persist the same record if and only if they agree on those five fields |
| Store.GameStore.constructor | lib/store.ts:55-110 | initial state: no user or game state, no strokes or messages, disconnected, brush tool, size 5, colour `#ff0080`, chat shown, sound on |
| Store.GameStore.SetUser | lib/store.ts:58 | only `user` changes |
| Store.GameStore.Logout | lib/store.ts:59-65 | `user` and `gameState` become null, `strokes` and `messages` empty, `isConnected` false; all five preference fields are preserved; the persisted record only loses its user |
| Store.GameStore.SetGameState | lib/store.ts:69 | only `gameState` changes; the persisted record is unchanged |
| Store.GameStore.AddStroke | lib/store.ts:73 | only `strokes` changes, to `strokes ++ [s]` |
| Store.GameStore.ClearStrokes | lib/store.ts:74 | only `strokes` changes, to empty |
| Store.GameStore.AddMessage | lib/store.ts:78-88 | only `messages` changes, by `Chat.AddMessage`; a held id leaves the whole store unchanged; afterwards the id is held; the invariant is kept |
| Store.GameStore.ClearMessages | lib/store.ts:89 | only `messages` changes, to empty |
| Store.GameStore.SetIsConnected | lib/store.ts:93 | only `isConnected` changes |
| Store.GameStore.SetCurrentTool | lib/store.ts:96 | only `currentTool` changes |
| Store.GameStore.SetBrushSize | lib/store.ts:99 | only `brushSize` changes |
| Store.GameStore.SetBrushColor | lib/store.ts:102 | only `brushColor` changes |
| Store.GameStore.SetShowChat | lib/store.ts:105 | only `showChat` changes |
| Store.GameStore.SetSoundEnabled | lib/store.ts:109 | only `soundEnabled` changes |

## Left out

- The room-creation widget `components/lobby/CreateRoom.tsx`: React rendering, navigation, and socket events with a 15000 ms timeout. That is UI, network I/O and event-loop timing, not store logic.
- The zustand `create` and `persist` middleware (lib/store.ts:1-2, 53-54, 111-112): the storage key `masskribbl-storage`, writing to local storage, rehydration on load and subscription/notification of readers. Only the `partialize` projection is modelled.
- The direct `setState` that zustand also exposes. It bypasses the named actions, so the invariant `Valid()` holds only for updates made through those actions.
- The contents of `GameState`, `DrawingStroke`, `Player` and `ChatMessage` (lib/store.ts:3). They are defined in `lib/socket.ts`, which is not part of this model. The `id` of a message is modelled as a string and compared by equality, as `===` does.
- Store.GameStore.SetBrushSize: `brushSize` is a JavaScript number (an IEEE double) and is modelled as a `real`. The store only stores it, so NaN, infinities and rounding are not modelled.
- Unbounded stroke growth is modelled as the code has it: no cap or compaction is added.
