# Whiteboard card store

A model of the card table at the heart of the whiteboard server
(`server.js`). The server holds one in-memory list of cards, each an
open-field record with an `id`. Three request handlers change that list:

- create appends `{ id: now, ...body }`;
- update shallow-merges a body into the first card whose `id` strictly equals
  the parsed path id, or answers not-found;
- delete keeps every card whose `id` differs from the parsed path id, and always
  answers success.

Every successful change overwrites the snapshot file with the whole list and
then broadcasts one event to all clients. At start-up the list is read back
from that file. A missing or unparseable file gives the empty list. A client
that connects is sent the current list.

`cards.dfy` (module `Cards`) holds the records and the pure parts of the
handlers:

- a card is a `map<string, Value>`, where `Value` is a JSON value and numbers
  are `real`s;
- `Spread` is the object spread `{ ...a, ...b }`;
- `NewCard` is the record create builds;
- `Matches` is the `c.id === id` test;
- `FindIndex` is `findIndex` with that test;
- `Without` is the `filter` delete applies.

The lemmas in `cards.dfy` state what the filter does and how it relates to the
search.

`store.dfy` (module `Store`) holds the class `CardStore`. Its fields are:

- `cards`: the table;
- `file`: what the snapshot file holds;
- `effects`: the ordered record of file writes, broadcasts and greetings of new
  clients.

There is one method per handler. `Durable()` says that a restart would reload
exactly the cards in memory. The constructor establishes it and every handler
keeps it.

The parsed path id is an `Option<int>`: `None` stands for the NaN that
`parseInt` yields on a non-numeric segment. NaN is strictly equal to nothing,
so `None` never matches a card. The clock reading `Date.now()` is the parameter
`now` of `Create`. Nothing in the code keeps ids apart, so the model does not
assume they are unique:

- two creates in the same millisecond share an id (`SameTickCollision`);
- a body may supply its own `id`, which overrides the clock;
- an update body that names `id` rewrites the card's id.

The server writes no backup copy of the file, has no diagram update and takes
no card changes over the socket; the model has none of these either.

## Model

| member | source | states |
|---|---|---|
| Cards.Spread | server.js:48 | the merged record has the keys of both records; the later record's value wins on every key it has, and every other key keeps the earlier record's value |
| Cards.NewCard | server.js:37 | a created card has exactly the body's keys plus `id`; every body field keeps its value; the id is the clock reading unless the body supplies an `id`, which then wins |
| Cards.Matches | server.js:46-57 | the strict-equality test on `id`: a NaN id (`None`) matches no card, a card without an `id` key never matches, a card whose `id` is not a number (a string, say) never matches, and otherwise it matches exactly when its number equals the parsed id |
| Cards.FindIndex | server.js:46 | the result is the first position whose card strictly matches the id, or -1 exactly when no card matches |
| Cards.FindIndexIsFirst | server.js:46 | any matching position with no match before it is the position the search reports |
| Cards.Without | server.js:57 | the kept cards all come from the list, none of them matches the id, and the list never grows |
| Cards.WithoutConcat | server.js:57 | the filter works on each part of a list separately, so the kept cards stay in their original relative order |
| Cards.WithoutCounts | server.js:57 | every matching card is removed, and every other card is kept exactly as many times as it occurred |
| Cards.WithoutIdempotent | server.js:57 | deleting the same id twice leaves the same list as deleting it once |
| Cards.WithoutShrinks | server.js:57 | if any card matches, delete makes the list strictly shorter |
| Cards.WithoutNoMatch | server.js:57 | if no card matches, delete leaves the list exactly as it was |
| Cards.WithoutUnchangedIffAbsent | server.js:46-57 | delete leaves the list unchanged if and only if update's search finds no card for that id |
| Cards.SameTickCollision | server.js:37-57 | two creates with the same clock reading and no body `id` give two cards with one id; update then finds only the first of them, and delete removes both |
| Store.Loaded | server.js:21-27 | what a (re)start reads: the empty list when the file is missing or unparseable, and the stored list otherwise; `Durable()` and every restart claim rest on it |
| Store.CardStore.constructor | server.js:19-32 | start-up fills the table from the file: the stored list if there is one, otherwise the empty list; no effects yet; a restart would reproduce the table |
| Store.CardStore.Load | server.js:21-27 | the table becomes the file's list, or the empty list when the file is missing or unparseable; afterwards a restart would reproduce the table |
| Store.CardStore.Save | server.js:28-30 | the file is overwritten with the whole table, which a restart would read back, and a write is recorded |
| Store.CardStore.Emit | server.js:40 | exactly one broadcast of the given event is appended to the effects |
| Store.CardStore.List | server.js:34 | the answer is the current table |
| Store.CardStore.Connect | server.js:65 | the new client alone is sent the current table; nothing else changes |
| Store.CardStore.Create | server.js:36-42 | exactly one new card is appended at the end and every earlier card keeps its place; the file then holds the new table; one write and then one `card_added` broadcast of the new card are recorded; the answer is the new card |
| Store.CardStore.Update | server.js:44-53 | with no matching card, including a NaN id, the answer is not-found and the table, the file and the effects are unchanged; otherwise only the first matching card is replaced by its merge with the body; the length and every other position are kept, including later cards with the same id; one write and then one `card_updated` broadcast of the merged card are recorded, and the answer is the merged card |
| Store.CardStore.Delete | server.js:55-61 | the table becomes the filtered list: matching cards removed and the others kept in order and multiplicity; it is unchanged exactly when no card matches; the answer is always success; one write and then one `card_deleted` broadcast of the id are always recorded |
| Store.Walkthrough | server.js:36-61 | a client run: create `{title: "A"}`, update it with `{title: "B", color: "red"}`, delete an absent id, then delete the card; the answers are the expected cards, the absent delete leaves the one card, and the table and the file both end empty |

## Left out

- Express routing, JSON body parsing, HTTP status codes and CORS (server.js:1-16). A handler's answer is a `Reply`: `Sent(card)`, `Success` or `NotFound`.
- Socket.io transport and connection bookkeeping (server.js:12-14, 63-64). A broadcast is a `Broadcast` entry in `effects`, and the list sent to a new client is a `Greeted` entry.
- The file system and JSON text. The file is the value `Snapshot`: `Missing`, `Unparseable` or `Stored(list)`. A stored list is assumed to read back as the list that was written. The file path (server.js:18) and the pretty-printing of the text are not modelled.
- A snapshot file whose JSON is valid but is not an array of objects is not modelled. The server would adopt that value as its table.
- A failing file write is not modelled. In the server, `writeFileSync` would throw after the table was already changed in memory, and no event would be sent. The model assumes every write succeeds.
- `Date.now()` is the parameter `now`. `parseInt` is the `Option<int>` parameter `id`. Its parsing rules are not modelled: leading digits, signs, and precision loss beyond 2^53.
- Numbers are exact `real`s, not IEEE doubles. A body or a stored card can carry any JSON number, but rounding and `-0` are not modelled. `-0 === 0` holds in JavaScript, and `-0` and `0` are also the same `real`.
- `Durable()` assumes every number survives a write and a read. A JSON number beyond the range of a double (such as `1e400`) parses to `Infinity`, which `JSON.stringify` writes as `null`, so after a restart such a card would differ from the one in memory.
- A request body is a map from keys to values. Key order is not modelled, and neither is spreading an array body, which would produce index keys.
- Start-up plumbing is not modelled: `server.listen`, the `PORT` and `HOST` settings, and logging (server.js:7-8, 64, 68-70).
- Concurrency is not modelled, because there is none: Node runs each handler to completion before the next.
