# CodeExecute: collaboration store, socket gateway and run poller in Dafny

CodeExecute is a browser code editor. Code runs on a remote judge, and
pages that share a room edit the same code together. This project models
the two parts of it that hold logic. The rest is rendering and calls to
outside services.

- **The backend** (`backend/server.js`):
  - The room store (`rooms`) maps a room id to the room's last code,
    language and stdin.
  - The socket handlers are `join-room`, `code-change`, `language-change`,
    `input-change` and `disconnect`.
  - The request checks and defaults cover `/api/execute`,
    `/api/submission/:token`, `/api/autocomplete` and the `ai-autocomplete`
    event.
- **The editor page** (`frontend/src/pages/EditorPage.jsx`):
  - The Run button submits once, then polls while the judge reports
    "In Queue" or "Processing".
  - The edit handlers update the page and tell the room. The `sync-code`
    and relay handlers apply what other pages send.
  - Share links, the status badge, and the language, template and
    download-extension tables.

Files, one module each:

| file | module | what |
|---|---|---|
| js_values.dfy | JsValues | optional values, JavaScript truthiness and `\|\|`, `String.prototype.trim` |
| base64.dfy | Base64 | `btoa`/`atob` as section 4 of RFC 4648 with the WHATWG forgiving-base64 rules; round trip |
| room_store.dfy | RoomStore | room records, edits, last-write-wins and only-grow over event traces; the inherited-key finding |
| gateway.dfy | SocketGateway | class `Gateway`: store, room membership, roles and an outbox of everything sent |
| http_api.dfy | HttpApi | validation and defaulting of the HTTP endpoints and of `ai-autocomplete` |
| languages.dfy | Languages | `languageOptions`, `languageTemplates`, `extMap` |
| status_badge.dfy | StatusBadge | `statusMap` and the badge's three-way classification |
| run_poller.dfy | RunPoller | class `RunPanel` and the `Run` loop, proved against the pure `Poll` |
| editor_session.dfy | EditorSession | class `Session`: connect, edit, sync and relay handlers, share; AI reply handling |
| scenarios.dfy | Scenarios | page and backend together: messages delivered to the gateway, end-to-end runs |

Outside services are parameters of the model:

- **The judge:** the answer to the submit request and the sequence of
  answers to the fetches.
- **The completion provider:** its answer, or its failure.
- **The address bar:** the address the page is mounted with, read once into the `room` and `role` parameters.
- **`Math.random`:** the new room id.

### Modelling decisions

- **The Run loop.** The page re-polls with `setTimeout`, without bound.
  The model takes the judge's answers as a finite sequence. If that
  sequence runs out while the submission is still pending, the run is
  still in progress, so `loading` stays true.
- **`btoa` throwing.** `btoa` throws on a character above U+00FF, and the
  call sits before the `try` in `handleRun`. The page is then left in its
  cleared, loading state, and no request is sent. `Run` models exactly
  that. "## Findings" records it, with the run as evidently intended
  beside it.
- **Stale language on connect.** The socket's `connect` handler is created
  once, when the page mounts. When the address has no room, it restores the
  template of the language the page had at mount. It does this on every
  connect, reconnects included. `Session.OnConnect` models it that way.
- **Solo pages share `default-room`.** A page with no room is in the
  editor role, and it sends its edits to room `"default-room"`. The
  backend stores them there and relays them to any page that opened
  `?room=default-room`. `Scenarios.SoloEditsReachDefaultRoom` shows this.
- **Only address rooms listen.** The `connect` handler registers the
  `sync-code` and relay handlers, and only when the address had a room.
  A page that creates a room by sharing joins it and sends to it, but it
  hears nothing from it until it is loaded again with the room in its
  address. Copying the editor link does reload it; copying the viewer link
  does not. `Session.listening` records this, and `OnSyncCode` and
  `OnRemoteEdit` require it.
- **Snapshots never empty a field.** A `sync-code` snapshot copies only the
  fields that are present and not empty. If a room's code was cleared to
  "", a page that joins later keeps the code it had, which is the Python
  template. `EditorSession.SnapshotNeverClears` states this.

## Model

| member | source | states |
|---|---|---|
| JsValues.Trim | CodeExecute/backend/server.js:58 | `trim` returns the slice `s[a..b]` with everything before `a` and after `b` whitespace, and no ECMAScript whitespace at either end of the result |
| JsValues.TrimIdempotent | CodeExecute/backend/server.js:58 | trimming a trimmed string changes nothing |
| JsValues.TrimEmptyIff | CodeExecute/frontend/src/pages/EditorPage.jsx:176 | `s.trim()` is empty exactly when `s` is all whitespace (the guard `!code.trim()` and the `\|\| ""` fallback) |
| Base64.Encode | CodeExecute/frontend/src/pages/EditorPage.jsx:226-227 | `btoa` succeeds exactly on strings with every character at most U+00FF, and its output length is a multiple of 4 |
| Base64.Decode | CodeExecute/frontend/src/pages/EditorPage.jsx:252-254 | `atob` yields a one-byte-per-character string or fails |
| Base64.DecodeIgnoresWhitespace | CodeExecute/frontend/src/pages/EditorPage.jsx:252-254 | `atob` gives the same answer once the ASCII whitespace is removed from its input |
| Base64.DecodeRejectsForeign | CodeExecute/frontend/src/pages/EditorPage.jsx:252-254 | one character outside the Base64 alphabet, '=' and ASCII whitespace, anywhere in the input, makes `atob` throw |
| Base64.RoundTrip | CodeExecute/frontend/src/pages/EditorPage.jsx:226-227 | `atob(btoa(s)) == s` for every string `btoa` accepts: the judge's own Base64 decoding gives back the page's code and stdin as one byte per character (the bytes are the text itself only for ASCII; see Left out) |
| RoomStore.Put | CodeExecute/backend/server.js:86 | an edit overwrites exactly one field of a room record and keeps the other two |
| RoomStore.ApplyEdit | CodeExecute/backend/server.js:84-100 | an edit creates an absent room, sets the edited field, leaves the other fields (absent for a new room) and every other room unchanged, and adds no key but the room's |
| RoomStore.LastWriteWins | CodeExecute/backend/server.js:84-100 | after any trace of events, a field holds its last edit's value whatever is interleaved; an unedited field keeps its value; no room disappears |
| RoomStore.RoomsOnlyGrow | CodeExecute/backend/server.js:69-131 | after any trace, a room exists exactly when it existed before or the trace edits it: joins and disconnects never create or remove rooms |
| RoomStore.RoomTruthyAsWritten | CodeExecute/backend/server.js:78 | `rooms[roomId]` as written is truthy for every stored room, and differs from "the room is stored" exactly for an inherited property name that is not stored |
| RoomStore.ApplyEditAsWritten | CodeExecute/backend/server.js:85-86 | on the object as written, an edit of an inherited property name that is not stored leaves the store unchanged; for every other id it agrees with `ApplyEdit` |
| RoomStore.InheritedRoomIdCounterexample | CodeExecute/backend/server.js:78 | on a fresh server, room "constructor" already counts as existing and an edit of it is not stored |
| SocketGateway.Relay | CodeExecute/backend/server.js:87 | `socket.to(roomId)` reaches exactly the connected sockets other than the sender that have joined the room |
| SocketGateway.JoinOutput | CodeExecute/backend/server.js:78-81 | on the corrected store (see Findings; the source differs for inherited names), a join sends the full stored record to the joiner only, only when the room exists, then the acknowledgment exactly once if there is one, and nothing else |
| SocketGateway.Gateway.constructor | CodeExecute/backend/server.js:69 | the server starts with no rooms, no members and nothing sent |
| SocketGateway.Gateway.Connect | CodeExecute/backend/server.js:71 | a connection adds a socket in no room and changes nothing else |
| SocketGateway.Gateway.JoinRoom | CodeExecute/backend/server.js:74-82 | a join adds the room to the socket's rooms and records the declared role; it never changes the store; it sends `JoinOutput`, so it follows the corrected store (see Findings) |
| SocketGateway.Gateway.Edit | CodeExecute/backend/server.js:84-100 | an edit updates the store by `ApplyEdit`, the corrected store (see Findings; the source drops edits of inherited names), and relays the value under the field's event to every room member except the sender; roles play no part and are unchanged |
| SocketGateway.Gateway.Disconnect | CodeExecute/backend/server.js:128-130 | a disconnect removes the socket's memberships and role and leaves the store and outbox unchanged |
| HttpApi.CheckExecute | CodeExecute/backend/server.js:161-176 | `/api/execute` refuses (400, fixed message) exactly when the source or language id is falsy, and otherwise forwards them unchanged with stdin defaulted to "" and limits 5 and 512000 |
| HttpApi.CheckToken | CodeExecute/backend/server.js:139-141 | an empty token is refused with "Token is required"; any other token is passed on unchanged |
| HttpApi.FirstCandidateText | CodeExecute/backend/server.js:57-58 | the optional chain yields text only when every link to the first part of the first candidate is present, and whenever every link is present it is that part's text |
| HttpApi.SuggestionText | CodeExecute/backend/server.js:119-121 | the suggestion is "" exactly when there is no text or it is all whitespace; otherwise it is the trimmed text |
| HttpApi.Autocomplete | CodeExecute/backend/server.js:103-125 | falsy code gives "Code is required" whatever the provider would say; a provider failure passes its message; otherwise the first candidate's trimmed text or "" |
| HttpApi.HttpStatus | CodeExecute/backend/server.js:33-65 | `/api/autocomplete` answers 200 exactly for a suggestion body, 400 exactly for missing code and 500 exactly for a provider failure |
| Languages.FindIn | CodeExecute/frontend/src/pages/EditorPage.jsx:134 | `find` succeeds exactly when an option has the mode, and returns an option with that mode |
| Languages.FindSucceedsIff | CodeExecute/frontend/src/pages/EditorPage.jsx:24-34 | looking up a mode succeeds exactly for "cpp", "java", "python" and "javascript" |
| Languages.FindOwnValue | CodeExecute/frontend/src/pages/EditorPage.jsx:24-34 | no two options share a mode: looking up an option's own mode gives that option |
| Languages.Template | CodeExecute/frontend/src/pages/EditorPage.jsx:36-41 | a template exists exactly for the four modes, and each is longer than the fallback |
| Languages.StarterCode | CodeExecute/frontend/src/pages/EditorPage.jsx:143 | the starter code is the mode's own template for each of the four modes, the fallback comment exactly for any other mode, and never empty |
| Languages.DownloadName | CodeExecute/frontend/src/pages/EditorPage.jsx:346-353 | the download name is `code.` plus an extension, and it is `code.txt` exactly when the mode is not one of the four |
| StatusBadge.StatusLabel | CodeExecute/frontend/src/pages/EditorPage.jsx:43-53 | `statusMap` has a non-empty label exactly for ids 1 to 9 |
| StatusBadge.Classify | CodeExecute/frontend/src/pages/EditorPage.jsx:715-730 | pending exactly for id <= 2, success exactly for 3, failure exactly for >= 4: disjoint and covering every id |
| StatusBadge.BadgeLabel | CodeExecute/frontend/src/pages/EditorPage.jsx:732 | the badge shows the `statusMap` label for ids 1 to 9 and the judge's description otherwise |
| StatusBadge.BadgeFor | CodeExecute/frontend/src/pages/EditorPage.jsx:713-732 | a badge is shown exactly when a status was recorded; it is pending exactly for id <= 2, green exactly for id 3, red exactly for id >= 4, and carries the badge label |
| RunPoller.SubmitRequestFor | CodeExecute/frontend/src/pages/EditorPage.jsx:226-233 | a request is made exactly when both code and stdin pass `btoa`; it carries the language id, and its fields decode back to the page's code and stdin |
| RunPoller.RawOutput | CodeExecute/frontend/src/pages/EditorPage.jsx:253 | the output is the first of stdout, stderr and compile output that is present and non-empty, otherwise "" |
| RunPoller.Finish | CodeExecute/frontend/src/pages/EditorPage.jsx:252-258 | a final answer ends loading with a non-empty output: when it decodes, exactly the decoded text ("No output" for "") with the judge's status, time and memory; when `atob` throws, exactly "Error fetching result: " plus its message, status 8, and the time and memory already shown |
| RunPoller.Step | CodeExecute/frontend/src/pages/EditorPage.jsx:235-264 | a fetch schedules another exactly when it returns id <= 2, recording only that status; a final answer that decodes gives exactly the decoded output ("No output" for ""), its status, time and memory, not loading; a decode or fetch failure gives exactly "Error fetching result: " plus the message, status 8, not loading |
| RunPoller.Poll | CodeExecute/frontend/src/pages/EditorPage.jsx:235-266 | polling fetches at most every answer and at least one if there is any; every answer fetched before the last was pending; stopping early means the last fetched answer was final and loading is over |
| RunPoller.PollStopsAtFirstFinal | CodeExecute/frontend/src/pages/EditorPage.jsx:235-266 | polling makes exactly k+1 fetches when answer k is the first not pending, never looks at later answers, ends loading, and shows what that answer makes of the view |
| RunPoller.PollAllPending | CodeExecute/frontend/src/pages/EditorPage.jsx:248-250 | while every answer is pending, all are fetched and only the status changes, to the last one fetched |
| RunPoller.RunOutcome | CodeExecute/frontend/src/pages/EditorPage.jsx:220-272 | if `btoa` throws, the page stays cleared and loading with nothing fetched; a failed submit shows "Error: " plus the server's error, or the exception message when that is absent or empty, with status 8, no time or memory, not loading, nothing fetched; a submitted run is `Poll` from the cleared, loading view |
| RunPoller.BtoaThrowLeavesLoading | CodeExecute/frontend/src/pages/EditorPage.jsx:226-227 | as written, code holding '€' leaves the page loading with no output, no status and no fetch, whatever the judge would answer |
| RunPoller.RunOutcomeCaught | CodeExecute/frontend/src/pages/EditorPage.jsx:220-272 | with the encoding inside the `try`, a `btoa` failure shows "Error: " plus its message with status 8, not loading; every other run is `RunOutcome` |
| RunPoller.CaughtRunEndsUnlessPending | CodeExecute/frontend/src/pages/EditorPage.jsx:220-272 | with the encoding caught, a run still loading was submitted and every answer so far is pending; every other run ends with a status |
| RunPoller.RunPanel.constructor | CodeExecute/frontend/src/pages/EditorPage.jsx:63-72 | a fresh page has no output, no status, no time or memory, and is not loading |
| RunPoller.RunPanel.Run | CodeExecute/frontend/src/pages/EditorPage.jsx:220-272 | the Run loop ends in exactly the view and fetch count of `RunOutcome`: cleared and loading if `btoa` throws; "Error: " plus the server's error or the exception message, with status 8, if the submit fails; otherwise `Poll` from the cleared, loading view |
| EditorSession.EffectiveRoom | CodeExecute/frontend/src/pages/EditorPage.jsx:57 | `roomId \|\| "default-room"` is the room id when it is non-empty, "default-room" otherwise, and never empty |
| EditorSession.EditMessage | CodeExecute/frontend/src/pages/EditorPage.jsx:321-343 | an edit is sent exactly when a socket is connected and the role is "editor"; it carries the field and value, addressed to `roomId \|\| "default-room"` |
| EditorSession.ApplySnapshot | CodeExecute/frontend/src/pages/EditorPage.jsx:131-136 | each snapshot field that is present and non-empty replaces the page's (the language by lookup); every other field is kept |
| EditorSession.ApplyRemote | CodeExecute/frontend/src/pages/EditorPage.jsx:137-141 | a relayed edit sets exactly its own field (the language by lookup), even to "" |
| EditorSession.LateJoinerConverges | CodeExecute/frontend/src/pages/EditorPage.jsx:131-136 | a page joining a room whose code (non-empty), language and input were set ends with exactly those, whatever it showed before; an empty input converges for a page whose input was empty |
| EditorSession.SnapshotNeverClears | CodeExecute/frontend/src/pages/EditorPage.jsx:131-136 | a field last set to "" in the store leaves the joining page's field as it was |
| EditorSession.RemoteEditMatchesStore | CodeExecute/frontend/src/pages/EditorPage.jsx:137-141 | after a relayed edit, the receiving page's field equals the stored field |
| EditorSession.SplitAt | CodeExecute/frontend/src/pages/EditorPage.jsx:116 | cutting a string at the first occurrence of a character gives the part before it, which does not contain it, and the part after it |
| EditorSession.SplitAtFirst | CodeExecute/frontend/src/pages/EditorPage.jsx:116 | the cut is made at the first occurrence, whatever follows it |
| EditorSession.ShareLinksReadBack | CodeExecute/frontend/src/pages/EditorPage.jsx:284-287 | opening either share link and reading `room` and `role` from its address (as lines 116-118 do) gives back the room id and "editor" or "viewer", for an id as the page generates it (no '&', '#', '%' or '+'); ids from the address are the finding below |
| EditorSession.DecodePlain | CodeExecute/frontend/src/pages/EditorPage.jsx:116-117 | `URLSearchParams` decoding leaves text without '%' and '+' unchanged |
| EditorSession.LinkReadBack | CodeExecute/frontend/src/pages/EditorPage.jsx:116-118 | a link `base?room=<value>&role=<role>` reads back the decoded value and the role, for a value without '&' or '#' |
| EditorSession.AmpersandIdLink | CodeExecute/frontend/src/pages/EditorPage.jsx:284-287 | as written, the links of room "x&y" (an address `?room=x%26y`) open room "x" |
| EditorSession.HashIdViewerLink | CodeExecute/frontend/src/pages/EditorPage.jsx:284-287 | as written, the viewer link of room "a#b" opens room "a" with no role |
| EditorSession.EncodeChar | CodeExecute/frontend/src/pages/EditorPage.jsx:284-287 | one character of `encodeURIComponent` decodes back to itself and holds no '&', '#' or '+' |
| EditorSession.EncodeComponent | CodeExecute/frontend/src/pages/EditorPage.jsx:284-287 | `encodeURIComponent` leaves no '&', '#' or '+' in the value |
| EditorSession.DecodeEncoded | CodeExecute/frontend/src/pages/EditorPage.jsx:284-287 | `URLSearchParams` decoding undoes `encodeURIComponent` for every string |
| EditorSession.EncodedShareLinksReadBack | CodeExecute/frontend/src/pages/EditorPage.jsx:284-287 | links built with the id encoded read back exactly the room id, whatever it is, and "editor" or "viewer" |
| EditorSession.ShareMessages | CodeExecute/frontend/src/pages/EditorPage.jsx:292-298 | sharing sends a join with an acknowledgment, then the page's code, language mode and input, each in its own change, all to the new room |
| EditorSession.MayRequestCompletion | CodeExecute/frontend/src/pages/EditorPage.jsx:176 | a completion is requested exactly when a socket is connected and the code is not all whitespace |
| EditorSession.ReactToAi | CodeExecute/frontend/src/pages/EditorPage.jsx:181-191 | a reply is inserted exactly when it has no error and a non-empty suggestion; an error is reported with the "AI completion error: " prefix; with neither, "No suggestion received from AI" |
| EditorSession.Session.constructor | CodeExecute/frontend/src/pages/EditorPage.jsx:60-78 | a mounted page reads `room` and `role` from its address once (lines 116-118, role defaulting to "editor"); it is in no room, in the editor role, with Python and its template (the mount effect at lines 156-160), no handlers registered and nothing sent |
| EditorSession.Session.OnConnect | CodeExecute/frontend/src/pages/EditorPage.jsx:115-145 | on every connect, with a room in the address read at mount, the page joins it under the address's role and registers the `sync-code` and relay handlers; without one, it registers nothing and resets the code to the template of the language it had at mount |
| EditorSession.Session.EmitCodeChange | CodeExecute/frontend/src/pages/EditorPage.jsx:321-326 | the page's code always changes; the message is `EditMessage`, so it is sent only by a connected editor |
| EditorSession.Session.EmitLanguageChange | CodeExecute/frontend/src/pages/EditorPage.jsx:328-336 | the language always changes; outside a room, a new mode also replaces the code by its template (lines 156-160) without telling the room |
| EditorSession.Session.EmitInputChange | CodeExecute/frontend/src/pages/EditorPage.jsx:338-343 | the page's stdin always changes; the message is `EditMessage` |
| EditorSession.Session.OnSyncCode | CodeExecute/frontend/src/pages/EditorPage.jsx:131-136 | callable only once a connection made with a room in the address registered it; the page's fields become `ApplySnapshot` of them; nothing is sent |
| EditorSession.Session.OnRemoteEdit | CodeExecute/frontend/src/pages/EditorPage.jsx:137-141 | callable only once a connection made with a room in the address registered it; a relayed value replaces its field as `ApplyRemote` says |
| EditorSession.Session.ShareRoom | CodeExecute/frontend/src/pages/EditorPage.jsx:283-306 | in a room, nothing changes and the links name it; otherwise the page takes the new id and the editor role and, if connected, sends `ShareMessages` of its current fields and returns the links for the new id; with neither a room nor a socket the emit throws and no links come back, after the id and role were set |
| Scenarios.Deliver | CodeExecute/backend/server.js:74-100 | a message the page emits is handled by the backend handler of the same name |
| Scenarios.SoloEditsReachDefaultRoom | CodeExecute/frontend/src/pages/EditorPage.jsx:321-326 | a page in no room sends its code to "default-room", where the backend stores it and relays it to a viewer of that room |
| Scenarios.ShareThenView | CodeExecute/frontend/src/pages/EditorPage.jsx:283-306 | after a page with non-empty code shares its work, the room holds its three fields and a viewer joining later ends with the same code, language and input, an empty input included |
| Scenarios.HashIdViewerLinkOpensAsEditor | CodeExecute/frontend/src/pages/EditorPage.jsx:115-141 | as written, a page opened on the viewer link of room "a#b" joins room "a" as an editor and listens to it |
| Scenarios.OpenEncodedViewerLink | CodeExecute/frontend/src/pages/EditorPage.jsx:115-141 | a page opened on an encoded viewer link joins the sharer's room as a viewer, whatever the id |
| Scenarios.OpenViewerLink | CodeExecute/frontend/src/pages/EditorPage.jsx:115-141 | a page opened on a viewer share link joins the sharer's room as a viewer on connect and listens to it |
| Scenarios.EmptyCodeIsRefused | CodeExecute/frontend/src/pages/EditorPage.jsx:267-271 | empty code encodes to "", which `/api/execute` refuses; the page shows "Error: " plus that message, status 8, and makes no fetch |
| Scenarios.PrintOneRun | CodeExecute/frontend/src/pages/EditorPage.jsx:235-258 | one "Processing" answer, then "Accepted" with stdout "MQo=", gives two fetches and output "1\n" with the judge's time and memory |
| Scenarios.CompletionRoundTrip | CodeExecute/frontend/src/pages/EditorPage.jsx:175-191 | a request the page lets through is never refused for missing code; the page inserts the trimmed text when there is any, and otherwise reports "No suggestion received from AI", including for a provider failure with an empty message |
| Scenarios.FailedRunBadge | CodeExecute/frontend/src/pages/EditorPage.jsx:267-271 | after a failed submit, the badge is the red "Internal Error" one |

## Left out

- Monaco can pass `undefined` to the code handler, which then stores "" locally and sends `undefined`. The model's edit values are always strings.
- socket.io's own bookkeeping is not modelled: each socket's private room, and leaving rooms on disconnect, which `Gateway.Disconnect` stands in for. The `connect_error` notification and the duplicate listeners a reconnect registers are not modelled either.
- The HTTP calls to the judge and to the completion provider are not modelled: their answers are inputs. The backend's mapping of their failures (status code and `details` body, backend/server.js:153-158 and 186-191) is left out, since the page reads only `error`. So are `/health` and `/api/languages`.
- The prompt text, model name and generation settings sent to the provider are left out: they are constants passed to an outside service.
- Timing is not modelled: the one-second poll delay, the 200 ms share delay and the notification timers. Neither are two runs started before the first ends: their pollers would interleave their updates to the same state.
- RunPoller.AtobErrorMessage: the text of the exception `atob` throws differs between browsers; one fixed text stands for it.
- RunPoller.BtoaErrorMessage: likewise for `btoa`; it is used only by the corrected run in "## Findings".
- A judge answer without a `status` field, which the page turns into "Error fetching result: …", is left out: `Submission` always has a status.
- `HttpApi.ExecuteBody` takes a number for `language_id`; other JSON types (a numeric string, an object) are not modelled.
- The memory display (`Math.round(memory / 1000)`) is floating-point display formatting and is left out.
- Rendering is left out, including the viewer's read-only editor and disabled language menu, which gate edits a second time in the UI.
- `Math.random` room ids are a parameter of `Session.ShareRoom`.
- A page whose language lookup failed (a snapshot naming an unknown mode) keeps `None` in the model; the page itself would throw when it next reads `language.value`.
- Base64.RoundTrip: `btoa` sends a character from U+0080 to U+00FF as one byte (é as 0xE9), while the judge reads source as UTF-8; the model proves only that the bytes decode back to the page's characters, not that the judge sees the same text for non-ASCII code.
- EditorSession.DecodeParam: a percent escape decodes to the character of its one byte, where `URLSearchParams` decodes UTF-8 byte sequences; `EncodeChar` matches it, escaping U+0080 to U+00FF as one byte and passing characters above U+00FF as they are, where `encodeURIComponent` writes UTF-8 escapes. The read-back holds either way; the link text differs for non-ASCII ids.
- RoomStore.ApplyEditAsWritten: after an edit to room "__proto__", `Object.prototype` itself gains `code`, `language` or `input`, so those names also become truthy rooms, and an edit to room "code" then assigns a property on a string, which throws in strict mode. The fixed `InheritedKeys` does not follow that, so its agreement with `ApplyEdit` holds only for a store no edit to "__proto__" has touched.
- Inserting a suggestion into the editor, the clipboard and the download are browser calls; only `ReactToAi`'s decision and `DownloadName` are modelled.

## Findings

| source | as written | input that shows it | evidently intended | confidence | as-written member | corrected member |
|---|---|---|---|---|---|---|
| CodeExecute/backend/server.js:69-98 | `rooms` is a plain object, so `rooms[roomId]` also finds the names every object inherits from Object.prototype. Such a room counts as existing before it is created, a join sends it as a snapshot, and an edit of it lands on the inherited object, not the store | room id "constructor" (or "__proto__", "toString", …) on a fresh server | a room exists only once an edit has created it, and every edit is stored (a `Map` or `Object.create(null)`) | medium, not executed | RoomStore.ApplyEditAsWritten, RoomStore.RoomTruthyAsWritten, RoomStore.InheritedRoomIdCounterexample | RoomStore.ApplyEdit, SocketGateway.JoinOutput, SocketGateway.Gateway.JoinRoom, SocketGateway.Gateway.Edit |
| CodeExecute/frontend/src/pages/EditorPage.jsx:284-287 | the share links write `roomId` into the address without `encodeURIComponent`. A room id read from the address can hold '&' or '#', and the links then name another room, or lose their role | room "x&y" (opened as `?room=x%26y`): the links open room "x"; room "a#b": the viewer link opens room "a" as an editor | each link opens the room it was made for, in its role | medium, not executed | EditorSession.AmpersandIdLink, EditorSession.HashIdViewerLink, Scenarios.HashIdViewerLinkOpensAsEditor | EditorSession.EncodedShareLinksReadBack, Scenarios.OpenEncodedViewerLink |
| CodeExecute/frontend/src/pages/EditorPage.jsx:226-227 | `btoa` is called before the `try`, so its exception is caught by nothing: the page stays loading, with the Run button disabled, until it is reloaded | code containing '€' (any character above U+00FF) | the failure is shown like a failed submit, status 8, and loading ends | high, not executed | RunPoller.BtoaThrowLeavesLoading, RunPoller.RunPanel.Run | RunPoller.RunOutcomeCaught, RunPoller.CaughtRunEndsUnlessPending |
