# mcp_link_blender in Dafny

This project is a model of the deterministic core of the MCP-Link Blender add-on, with proofs about that model. The add-on connects Blender to a local MCP-Link server. It does this in steps:

- It runs the server's native-messaging helper and reads one Chrome Native Messaging frame from it. The frame holds the server configuration: its URL and Bearer credential.
- It opens a server-sent event stream and reads the message endpoint and session id from it.
- It posts JSON-RPC 2.0 requests and matches each reply to its request through a map of pending request ids.
- It registers a tool named `blender` and answers the server's reverse calls to that tool.

Blender's API may only be used from Blender's main thread. Each reverse call is therefore queued. A 0.1-second timer on the main thread drains that queue, up to five items per tick. Each call is routed to one of three handlers: Python execution with optional persistent sessions, attribute-path API calls, or calls to other MCP tools.

The project has one module per component. Each file holds one module:

| file | module | models |
|---|---|---|
| `wrappers.dfy` | `Wrappers` | `Option` |
| `text.dfy` | `Text` | the Python string operations used: `strip`, `startswith`, `in`, `find`, `split`, `join` |
| `json.dfy` | `Json` | decoded JSON values, plus Python truthiness, `in`, `d[k]` and `.get`; the tool-result and JSON-RPC envelopes |
| `framing.dfy` | `Framing` | the little-endian length-prefixed frame: decoder, encoder and the byte-reading loops |
| `fallback.dfy` | `Fallback` | the three-tier decode of the frame body, the truncated-JSON recovery, and reading the URL and credential |
| `reconnect.dfy` | `Reconnect` | the reconnection supervisor with exponential backoff |
| `handshake.dfy` | `Handshake` | the endpoint handshake on the event stream |
| `stream.dfy` | `Stream` | the event-stream reader (a demultiplexer) and the request correlator |
| `client.dfy` | `Client` | the `remote`-tool check, the registration check, and the reverse-call listener |
| `bridge.dfy` | `Bridge` | the main-thread work queue and its timer tick |
| `router.dfy` | `Router` | call routing and the three handlers' argument checks |
| `pysessions.dfy` | `PySessions` | persistent Python sessions and the variable filter |

Library calls are parameters of the model: `json.loads`, UTF-8 decoding, the tool handler, `exec`, and the callable/class/module tests on saved values. Network and process results are inputs: the helper's output bytes, the lines of the event stream, and the status of a POST. A wait that times out is modelled as a wait during which nothing arrives.

## Model

| member | source | states |
|---|---|---|
| Text.Strip | mcp_link_blender/mcp_client.py:557 | the result is the input with exactly its leading and trailing whitespace removed (Python `str.isspace` whitespace); it is empty only for an all-whitespace input |
| Text.CutAt | mcp_link_blender/mcp_client.py:566 | `s.split(p)[0]`: a prefix of `s` holding no occurrence of `p`; it ends at the end of `s` or where `p` occurs |
| Text.FindIsSubstring | mcp_link_blender/mcp_client.py:565 | a leftmost-occurrence search succeeds exactly when the pattern is a substring (Python `in`) |
| Text.SplitJoin | mcp_link_blender/mcp_integration.py:459-464 | joining the `split('.')` segments with the separator gives the string back |
| Json.Lookup | mcp_link_blender/mcp_client.py:599-600 | `d[key]` on a decoded object is defined exactly when the key occurs; the value is the one at the key's last occurrence |
| Json.Get | mcp_link_blender/mcp_integration.py:307-311 | `d.get(key, default)`: the member's value when the key occurs, otherwise the default |
| Json.In | mcp_link_blender/mcp_client.py:597-599 | Python `key in v` raises exactly on numbers, booleans and null; on an object it is a key test |
| Json.ToolResult | mcp_link_blender/mcp_integration.py:93-99 | the tool-result envelope is an object whose `isError` is the flag and whose first content text is the text |
| Json.RpcRequest | mcp_link_blender/mcp_client.py:642-647 | the request object carries `jsonrpc` "2.0" and exactly the given id, method and params (section 4 of the JSON-RPC 2.0 Specification) |
| Framing.LE32 | mcp_link_blender/mcp_client.py:451 | `struct.unpack('<I')` reads four bytes as a number below 2^32 |
| Framing.LE32Bytes | mcp_link_blender/mcp_client.py:451 | `struct.pack('<I', n)` gives four bytes that `struct.unpack('<I')` reads back as `n` |
| Framing.LE32Injective | mcp_link_blender/mcp_client.py:451 | a 4-byte prefix is determined by the length it encodes |
| Framing.EncodeFrame | mcp_link_blender/mcp_client.py:400-401 | a frame is the 4-byte little-endian body length followed by the body |
| Framing.DecodeFrame | mcp_link_blender/mcp_client.py:446-472 | fewer than 4 bytes fail; an accepted body has a length from 1 to 10,000,000, equal to the prefix, and is the bytes after the prefix |
| Framing.DecodeEncodeFrame | mcp_link_blender/mcp_client.py:451-472 | decoding an encoded frame of 1 to 10,000,000 bytes gives back exactly the body, whatever bytes follow it |
| Framing.DecodedIsEncoded | mcp_link_blender/mcp_client.py:446-472 | every accepted output is an encoded frame of the decoded body followed by bytes that are never read |
| Framing.BadLengthRejected | mcp_link_blender/mcp_client.py:455-458 | a length of 0 or above 10,000,000 is rejected whatever follows the prefix |
| Framing.ShortBodyRejected | mcp_link_blender/mcp_client.py:469-472 | a body shorter than the announced length is rejected |
| Framing.ReadFrame | mcp_link_blender/mcp_client.py:438-472 | the two chunked read loops give the decoder's result, however the pipe splits the bytes into chunks |
| Fallback.SkipSpaces | mcp_link_blender/mcp_client.py:357 | `\s*` consumes exactly the whitespace run |
| Fallback.QuotedRun | mcp_link_blender/mcp_client.py:357 | `([^"]+)"` captures a non-empty, quote-free run that is followed by a quote; it fails only at the end, on a quote, or when no quote follows |
| Fallback.QuotedRunFinds | mcp_link_blender/mcp_client.py:357 | a non-empty quote-free run followed by a quote is captured |
| Fallback.AfterKey | mcp_link_blender/mcp_client.py:357 | `"key"\s*:\s*` matches only where the quoted key occurs, and ends after it |
| Fallback.AfterKeyFinds | mcp_link_blender/mcp_client.py:357 | the quoted key, whitespace, a colon and whitespace are always matched up to the next non-space |
| Fallback.QuotedValue | mcp_link_blender/mcp_client.py:357-365 | a `"key"\s*:\s*"([^"]+)"` match is a non-empty quote-free text enclosed in quotes after the key's occurrence |
| Fallback.QuotedValueFinds | mcp_link_blender/mcp_client.py:357-365 | every key, spaces, colon, spaces, quoted value layout is matched, with exactly that value |
| Fallback.UrlAt | mcp_link_blender/mcp_client.py:357 | a URL match is an `http://` or `https://` string with at least one character after the scheme and no quote, enclosed in quotes after an occurrence of `"url"` |
| Fallback.UrlAtFinds | mcp_link_blender/mcp_client.py:357 | every `"url"` : `"http(s)://…"` layout is matched with exactly that URL, so the search succeeds |
| Fallback.AuthAt | mcp_link_blender/mcp_client.py:365 | an Authorization match is `Bearer`, whitespace, then at least one more character, with no quote, enclosed in quotes after an occurrence of `"Authorization"` |
| Fallback.AuthAtFinds | mcp_link_blender/mcp_client.py:365 | every `"Authorization"` : `"Bearer …"` layout is matched with exactly that credential, so the search succeeds |
| Fallback.NameAfterBrace | mcp_link_blender/mcp_client.py:373 | `\{\s*"([^"]+)"` after the key captures a non-empty quote-free text enclosed in quotes |
| Fallback.ServerNameAt | mcp_link_blender/mcp_client.py:373 | a server-name match is a non-empty, quote-free string enclosed in quotes after an occurrence of `"mcpServers"` |
| Fallback.ServerNameAtFinds | mcp_link_blender/mcp_client.py:373 | every `"mcpServers"` : `{ "name"` layout is matched with exactly that name |
| Fallback.Search | mcp_link_blender/mcp_client.py:357-373 | `re.search` gives the match at the leftmost position where the pattern matches, and fails only when it matches nowhere |
| Fallback.ReconstructedServers | mcp_link_blender/mcp_client.py:376-387 | the rebuilt configuration has one `mcpServers` entry and is marked as recovered from truncated JSON |
| Fallback.ReconstructedUrl | mcp_link_blender/mcp_client.py:376-387 | reading the rebuilt configuration gives back the recovered URL |
| Fallback.ReconstructedAuth | mcp_link_blender/mcp_client.py:376-387 | reading the rebuilt configuration gives back the recovered credential |
| Fallback.FirstServer | mcp_link_blender/mcp_client.py:509-519 | the first server is the object entry under the first key of a non-empty `mcpServers` object; a missing or empty `mcpServers` gives none |
| Fallback.FirstServerFound | mcp_link_blender/mcp_client.py:509-519 | a configuration whose first `mcpServers` entry is a non-empty object yields that entry |
| Fallback.ServerUrl | mcp_link_blender/mcp_client.py:509-519 | `_extract_server_url` gives a URL exactly when the first server has a non-null `url`, and that URL is it; an empty `mcpServers` gives none |
| Fallback.AuthHeader | mcp_link_blender/mcp_client.py:220-224 | a connection attempt reads a credential exactly when the first server's `headers` object has a non-null `Authorization`, and that credential is it |
| Fallback.ExtractTruncated | mcp_link_blender/mcp_client.py:357-387 | recovery fails exactly when the URL match or the Bearer match is missing; otherwise the configuration's URL and credential are exactly the matched texts, and it is marked as recovered |
| Fallback.ExtractedName | mcp_link_blender/mcp_client.py:373-378 | the single server is named by the `mcpServers` pattern, or `extracted_server` when that pattern does not match |
| Fallback.DecodeConfig | mcp_link_blender/mcp_client.py:474-489 | the three-tier decode: strict UTF-8 JSON, then Latin-1 JSON, then truncated-JSON recovery (its properties are `StrictDecodeWins` and `DegradedRecovery`) |
| Fallback.DecodeLenient | mcp_link_blender/mcp_client.py:480-489 | the Latin-1 JSON decode, falling back to truncated-JSON recovery |
| Fallback.DiscoverEndpoint | mcp_link_blender/mcp_client.py:438-489 | `_discover_server_endpoint` after the process output is read: unframe, then decode |
| Fallback.Latin1 | mcp_link_blender/mcp_client.py:481 | Latin-1 decoding maps each byte to the character with the same code |
| Fallback.DegradedRecovery | mcp_link_blender/mcp_client.py:474-489 | when neither strict nor Latin-1 JSON decoding parses a framed body, discovery succeeds exactly when both matches exist, and the URL and credential later read back are the matched texts |
| Fallback.StrictDecodeWins | mcp_link_blender/mcp_client.py:476-479 | a body that decodes as UTF-8 JSON is used as decoded, and the fallbacks never run |
| Reconnect.Pow2 | mcp_link_blender/mcp_client.py:134 | `2 ** n` is at least 1, and even for n ≥ 1 |
| Reconnect.BackoffDelay | mcp_link_blender/mcp_client.py:133-134 | there is no wait exactly when `retry_count` is 0; otherwise the delay is between 2 and the 60-second cap |
| Reconnect.Pow2Monotone | mcp_link_blender/mcp_client.py:134 | powers of two do not decrease |
| Reconnect.BackoffMonotone | mcp_link_blender/mcp_client.py:133-134 | the delay does not decrease as `retry_count` grows |
| Reconnect.BackoffSchedule | mcp_link_blender/mcp_client.py:122-134 | the delays are 2, 4, 8, 16, 32, and then 60 for every later retry |
| Reconnect.DropThenRetry | mcp_link_blender/mcp_client.py:130-163 | a worked example: after a silent drop the loop waits 2 seconds, after a failure 4; a stop during the next attempt ends the loop with no further wait |
| Reconnect.Supervisor.constructor | mcp_link_blender/mcp_client.py:68-71 | the supervisor starts with `retry_count` 0, disconnected and not stopped |
| Reconnect.Supervisor.Wait | mcp_link_blender/mcp_client.py:133-139 | with `retry_count` 0 there is no wait; otherwise one backoff wait is recorded, and a stop during it leaves the loop |
| Reconnect.Supervisor.AttemptSucceeded | mcp_link_blender/mcp_client.py:144-146 | a successful attempt sets `retry_count` to 0 |
| Reconnect.Supervisor.ListenReturned | mcp_link_blender/mcp_client.py:149-154 | after a drop without a stop, `retry_count` is exactly 1 and the client is disconnected |
| Reconnect.Supervisor.AttemptFailed | mcp_link_blender/mcp_client.py:155-163 | a failed or raising attempt adds 1 to `retry_count` |
| Reconnect.Supervisor.Stop | mcp_link_blender/mcp_client.py:281-309 | `disconnect` sets the stop flag and clears `is_connected`; nothing else changes |
| Reconnect.Supervisor.RunPass | mcp_link_blender/mcp_client.py:131-163 | one pass of the loop: it stops exactly on a stop seen during the wait, during a failed attempt or while listening; it records exactly the one backoff wait when the counter is positive; the counter ends at 1 after a drop, at 0 and disconnected after a stop while listening, and one higher after a failure that the wait did not cut short, with `is_connected` cleared only by a stop meanwhile; a stop during the wait changes neither the counter nor `is_connected` |
| Reconnect.Supervisor.Run | mcp_link_blender/mcp_client.py:130-163 | the loop ends early only on a stop; there is at most one wait per pass, and every wait is between 2 and 60 seconds |
| Handshake.SessionIdOf | mcp_link_blender/mcp_client.py:565-566 | the session id exists exactly when `session_id=` occurs; it is the text after the first marker, up to the next `&` or the next marker |
| Handshake.SessionIdBounds | mcp_link_blender/mcp_client.py:566 | the two chained `split(...)[0]` cuts stop at the first `&` or second marker |
| Handshake.LineStep | mcp_link_blender/mcp_client.py:559-563 | one stripped line sets the event type, or completes the scan with the `data:` payload after an `endpoint` event |
| Handshake.ScanEndpoint | mcp_link_blender/mcp_client.py:552-570 | the scan of the first ten lines for the endpoint payload (its properties are `ScanReadsTenLines`, `NoEventScan` and `ScanLines`) |
| Handshake.Handshake | mcp_link_blender/mcp_client.py:555-574 | the handshake succeeds exactly when the scan finds a non-empty endpoint holding a non-empty session id; the id is the one inside the endpoint, and the endpoint is the scanned `data:` payload |
| Handshake.ScanReadsTenLines | mcp_link_blender/mcp_client.py:556 | the scan depends on nothing after the tenth line |
| Handshake.HandshakeReadsTenLines | mcp_link_blender/mcp_client.py:556-574 | only the first ten lines of the stream can influence the handshake |
| Handshake.NoEventScan | mcp_link_blender/mcp_client.py:559-563 | without an `event:` line the scan finds no endpoint |
| Handshake.EndpointNeedsEvent | mcp_link_blender/mcp_client.py:559-574 | with no `event:` line among the first ten lines, the handshake fails |
| Handshake.ScanLines | mcp_link_blender/mcp_client.py:552-570 | the `for` loop finds the same endpoint as the scan, and sets the session id only together with the endpoint |
| Handshake.ScanContinues | mcp_link_blender/mcp_client.py:559-563 | a line that does not complete the scan passes the event type on to the next line |
| Handshake.ReadEndpoint | mcp_link_blender/mcp_client.py:552-574 | the imperative handshake returns exactly the pure handshake's result |
| Stream.DataPayload | mcp_link_blender/mcp_client.py:593-594 | a payload exists exactly for a stripped line that starts with `data:` |
| Stream.Classify | mcp_link_blender/mcp_client.py:587-610 | a reverse call is a parsed payload that contains `reverse`; a reply is a parsed object without `reverse`, with a hashable `id` |
| Stream.CommentIgnored | mcp_link_blender/mcp_client.py:590-591 | comment lines change nothing |
| Stream.UnparseableIgnored | mcp_link_blender/mcp_client.py:596-607 | a payload that does not parse is ignored and reading goes on |
| Stream.ReverseBeforeId | mcp_link_blender/mcp_client.py:598-599 | an object with `reverse` goes to the reverse queue, even when it has an `id` |
| Stream.ReplyRouted | mcp_link_blender/mcp_client.py:600-602 | an object without `reverse` and with a string `id` is a reply for that id |
| Stream.ScalarEndsReader | mcp_link_blender/mcp_client.py:598-610 | a scalar payload makes `in` raise, and the reader thread ends |
| Stream.Deliver | mcp_link_blender/mcp_client.py:598-602 | one event never opens or closes a slot; the reverse queue grows by exactly the reverse call; only an error stops the reader |
| Stream.Demux | mcp_link_blender/mcp_client.py:583-610 | the reader's state after a run of events; reading `a + b` is reading `a` then `b` |
| Stream.Events | mcp_link_blender/mcp_client.py:583-604 | there is one event per line read |
| Stream.EventsAppend | mcp_link_blender/mcp_client.py:583-604 | the events of consecutive runs of lines are the concatenation of each run's events |
| Stream.DemuxAppend | mcp_link_blender/mcp_client.py:583-604 | reading `a` and then `b` is the same as reading `a + b` |
| Stream.DemuxNextLine | mcp_link_blender/mcp_client.py:583-604 | while the reader runs, one more line read is one more event delivered |
| Stream.EventsSnoc | mcp_link_blender/mcp_client.py:583-604 | a line appended to the input adds its event at the end |
| Stream.DemuxSnoc | mcp_link_blender/mcp_client.py:583-604 | a running reader delivers an appended event last |
| Stream.ReaderDrained | mcp_link_blender/mcp_client.py:583-610 | a reader that stopped early is already in its final state |
| Stream.DemuxGrows | mcp_link_blender/mcp_client.py:598-610 | the reader never opens or closes slots; the queue and slots only grow at their ends; a stopped reader changes nothing |
| Stream.RepliesCarryId | mcp_link_blender/mcp_client.py:600-602 | every reply routed to slot `k` is an object whose `id` is `k` |
| Stream.DemuxSlot | mcp_link_blender/mcp_client.py:600-602 | a pending slot receives exactly the replies that carry its id, in arrival order, until the reader ends |
| Stream.AfterRequest | mcp_link_blender/mcp_client.py:637-687 | one `_send_request` from the reader's state: open the slot, post, let the reader handle the arrivals, take the slot's first message and close the slot (its properties are `RequestClosesSlot` and `RequestAnswer`) |
| Stream.RequestClosesSlot | mcp_link_blender/mcp_client.py:637-687 | after a request, the slot map is the old map without the request's id; with a fresh id it is unchanged; a non-202 status changes nothing else; a stream that ends during the wait ends the reader |
| Stream.RequestAnswer | mcp_link_blender/mcp_client.py:673-683 | a non-202 status or a timeout gives None; otherwise the answer is the first reply that carries the request's id |
| Stream.Session.constructor | mcp_link_blender/mcp_client.py:576-579 | a new session has empty queues, no pending slot, and a running reader |
| Stream.Session.HandleLine | mcp_link_blender/mcp_client.py:587-604 | one pass of the reader loop updates the state by the line's event |
| Stream.Session.RunReader | mcp_link_blender/mcp_client.py:583-610 | the reader loop's state is the fold of the events of the lines it read; it ends early only when stopped or on an error, and both the stop event and the end of a closed stream end the reader's thread |
| Stream.Session.SendRequest | mcp_link_blender/mcp_client.py:632-691 | `_send_request` posts the JSON-RPC request for the fresh id, and ends in the state and answer that `AfterRequest` gives |
| Client.AnyRemote | mcp_link_blender/mcp_client.py:251-252 | `any(tool.get('name') == 'remote' ...)`: short-circuits at the first `remote` entry, and raises on a non-object before it |
| Client.AnyRemoteIff | mcp_link_blender/mcp_client.py:251-252 | `any(...)` is true exactly when a `remote` entry comes before any non-object entry, and raises exactly when a non-object comes first |
| Client.HasRemoteTool | mcp_link_blender/mcp_client.py:244-255 | step 6 passes exactly when the response's `result.tools` list has a `remote` entry before any non-object; it raises exactly when a `.get` target or an entry is not an object or the tools value is not iterable; a missing response fails |
| Client.RemoteToolListed | mcp_link_blender/mcp_client.py:251-255 | a reply that lists `remote` among well-formed entries passes step 6 |
| Client.RegistrationCheck | mcp_link_blender/mcp_client.py:752-754 | a missing registration response means registration failed |
| Client.RegisteredIff | mcp_link_blender/mcp_client.py:752-764 | `_register_tool` returns True exactly when `result` is a dict whose first `content` item's `text` contains "Successfully registered tool" |
| Client.RegistrationOfToolResult | mcp_link_blender/mcp_client.py:756-762 | a tool-result reply registers exactly when its text contains the marker |
| Client.ListenAction | mcp_link_blender/mcp_client.py:786-796 | what the listener does with one message: handle it, skip it, or end (its property is `ListenActionIff`) |
| Client.ListenActionIff | mcp_link_blender/mcp_client.py:786-796 | a message is handled exactly when its `reverse.tool` is this tool; a non-object `reverse` ends the listener |
| Client.CallResult | mcp_link_blender/mcp_client.py:795-808 | the handler's value is sent back, or an `isError` envelope with the text "Error: " + message + two newlines + traceback |
| Client.ToolReply | mcp_link_blender/mcp_client.py:844-856 | a `tools/reply` request carries the call id and `{"result": result}` |
| Client.ToolCallParams | mcp_link_blender/mcp_client.py:836-842 | `call_mcp_tool` sends `name` and `arguments` exactly as given |
| Client.Serve | mcp_link_blender/mcp_client.py:775-812 | the listener takes every queued message unless one ends it |
| Client.OneReplyPerCall | mcp_link_blender/mcp_client.py:786-808 | every call for this tool gets exactly one reply, in queue order, carrying its call id and its result |
| Client.ServeAdvance | mcp_link_blender/mcp_client.py:775-812 | taking one more message advances the listener by that message's action |
| Client.TakeNext | mcp_link_blender/mcp_client.py:784-786 | the first queued message is taken off and decided; the slots and the reader are untouched |
| Client.Listen | mcp_link_blender/mcp_client.py:766-818 | a dead reader disconnects at once; otherwise the replies sent and messages taken are those of `Serve`, and the client stays connected unless a message ends the listener |
| Bridge.TickResult | mcp_link_blender/mcp_integration.py:86-99 | the handler's value is delivered, or an `isError` envelope with the "FATAL ERROR in work queue processor" text and the traceback |
| Bridge.Tick | mcp_link_blender/mcp_integration.py:58-108 | one unlocked timer tick: take up to five items and deliver each one's result (its properties are `BatchSize` and `TicksDrain`) |
| Bridge.Ticks | mcp_link_blender/mcp_integration.py:58-108 | `n` ticks in a row, one after the other (its property is `TicksDrain`: with the lock free they take a FIFO prefix of at most `5n` items and answer each once) |
| Bridge.Deliveries | mcp_link_blender/mcp_integration.py:78-103 | there is one delivery per dequeued item |
| Bridge.DeliveriesAt | mcp_link_blender/mcp_integration.py:83-102 | the i-th delivery goes to the i-th item's own result queue and carries that item's result |
| Bridge.DeliveriesAppend | mcp_link_blender/mcp_integration.py:76-103 | delivering two runs of items in turn is delivering them together, in order |
| Bridge.BatchSize | mcp_link_blender/mcp_integration.py:74-81 | a tick takes at most 5 items, and fewer only when the queue runs out |
| Bridge.Taken | mcp_link_blender/mcp_integration.py:74-81 | `n` ticks take no more items than are queued |
| Bridge.TicksDrain | mcp_link_blender/mcp_integration.py:69-108 | with the lock free, `n` ticks take the first `min(5n, length)` items in FIFO order, deliver one result each, and leave the rest queued in order |
| Bridge.DrainCompose | mcp_link_blender/mcp_integration.py:76-103 | one tick's batch followed by the next items is one FIFO prefix of the queue |
| Bridge.QueueEmptiesIn | mcp_link_blender/mcp_integration.py:58-108 | a queue of `n` items is empty after `ceil(n/5)` ticks, with every item answered exactly once |
| Bridge.WorkQueue.constructor | mcp_link_blender/mcp_integration.py:39-43 | the queue starts empty and unlocked, with nothing delivered |
| Bridge.WorkQueue.Submit | mcp_link_blender/mcp_integration.py:274-279 | `tool_handler` appends its item at the end of the queue |
| Bridge.WorkQueue.ProcessTick | mcp_link_blender/mcp_integration.py:58-108 | every tick returns 0.1; a locked tick changes nothing; otherwise the state is `Tick`'s, and the lock is released |
| Router.RouteCall | mcp_link_blender/mcp_integration.py:299-331 | the router's choice of handler, "Unknown operation", or a failure of a `.get` (its property is `RouteIff`) |
| Router.ArgumentsOf | mcp_link_blender/mcp_integration.py:307-308 | the arguments exist exactly when the call data, `params` and `arguments` are all objects |
| Router.DefaultIsPython | mcp_link_blender/mcp_integration.py:311-315 | a missing `operation` routes to Python execution |
| Router.RouteIff | mcp_link_blender/mcp_integration.py:311-331 | the routing rule for each handler and for "Unknown operation", as an if-and-only-if; routing fails exactly when a `.get` target is not an object |
| Router.DispatchCarriesArguments | mcp_link_blender/mcp_integration.py:314-326 | a handler always receives the call's own `arguments` |
| Router.UnknownReply | mcp_link_blender/mcp_integration.py:328-331 | an unknown operation gives an `isError` envelope with exactly the fixed text naming the operation and the three known ones |
| Router.Refusal | mcp_link_blender/mcp_integration.py:352-356 | a refusal is an `isError` envelope carrying its text |
| Router.CheckPython | mcp_link_blender/mcp_integration.py:351-359 | Python execution refuses exactly when `code` is missing or falsy (more in `PythonCheckIff`) |
| Router.PythonCheckIff | mcp_link_blender/mcp_integration.py:351-359 | Python execution refuses exactly when `code` is missing or falsy; the session defaults to `default` and persistence to true |
| Router.CheckApiPath | mcp_link_blender/mcp_integration.py:447-469 | the API handler's path checks (their properties are `ApiPathCheckIff` and `ForeignRootRefused`) |
| Router.ApiPathCheckIff | mcp_link_blender/mcp_integration.py:447-469 | an API call proceeds exactly for a non-empty string whose first dot segment is `bpy`, and `bpy` joined with the segments gives the path back; an empty path is refused; a non-string path raises inside the handler's `try` |
| Router.ForeignRootRefused | mcp_link_blender/mcp_integration.py:462-469 | a path outside `bpy` is refused with a message naming the path |
| Router.CheckToolCall | mcp_link_blender/mcp_integration.py:508-521 | the MCP-tool handler's checks (their property is `ToolCallCheckIff`) |
| Router.ToolCallCheckIff | mcp_link_blender/mcp_integration.py:508-521 | the client is called exactly with a truthy `tool_name` while connected; a missing name is reported before a missing connection |
| Router.RouterError | mcp_link_blender/mcp_integration.py:333-339 | the router's `except` returns an `isError` envelope with "ERROR: ", the message, two newlines and the traceback |
| Router.ApiCallError | mcp_link_blender/mcp_integration.py:494-499 | the API handler's `except` returns an `isError` envelope with "ERROR calling ", the path, ": ", the message, two newlines and the traceback |
| Router.HandleCall | mcp_link_blender/mcp_integration.py:299-339 | routing, then the chosen handler's check, with exceptions caught into error envelopes (its properties are the four lemmas below) |
| Router.RepliesAreErrors | mcp_link_blender/mcp_integration.py:299-339 | every immediate reply of the router and the handlers' argument checks, caught exceptions included, is an `isError` envelope |
| Router.CodeRunsOnlyWhenGiven | mcp_link_blender/mcp_integration.py:311-359 | Python code runs only through the `execute_python` handler and only when a truthy `code` was given |
| Router.ClientCalledOnlyWhenConnected | mcp_link_blender/mcp_integration.py:311-331 | the MCP client is called only for the `call_tool` operation, with a truthy tool name, while connected |
| Router.FailuresCaught | mcp_link_blender/mcp_integration.py:299-339 | no exception escapes: a routing failure gives the router's error envelope, a non-string `api_path` the API handler's naming that path; work goes ahead exactly when the call is routed and its handler's check passes |
| PySessions.StartNamespace | mcp_link_blender/mcp_integration.py:367-377 | the namespace a run starts from: the host names, updated by the session's variables when persistent (its property is `RestoreKeepsHost`) |
| PySessions.Executed | mcp_link_blender/mcp_integration.py:365-381 | the namespace after the code ran; the unhashable persistent session id and a raising `exec` are failures (its properties are in `RunTouchesOwnSession`) |
| PySessions.ReturnText | mcp_link_blender/mcp_integration.py:400-412 | `str(__return__)` when it is set and not `None`, and a failure when `str` raises (its properties are in `RunTouchesOwnSession`) |
| PySessions.ReportOf | mcp_link_blender/mcp_integration.py:399-421 | the report after the save: success with the shown return value and the session's names, or the failure report when `str` raises |
| PySessions.RunPython | mcp_link_blender/mcp_integration.py:361-437 | one run after the argument check, as the new store and the report; the session is stored before the report is built (its properties are `RunTouchesOwnSession` and `RunKeepsStoreAllowed`) |
| PySessions.SavedVars | mcp_link_blender/mcp_integration.py:384-397 | nothing is saved exactly when the filter raises on an allowed name; otherwise exactly the allowed names bound to plain values are saved, with their values |
| PySessions.SaveVars | mcp_link_blender/mcp_integration.py:385-396 | the saving loop builds exactly `SavedVars`, including the raising filter, whatever order it visits the names in |
| PySessions.SavedVarsIdempotent | mcp_link_blender/mcp_integration.py:386-390 | filtering a saved namespace again neither raises nor drops anything |
| PySessions.RunTouchesOwnSession | mcp_link_blender/mcp_integration.py:365-437 | a run changes only its own session, and replaces it with the filtered namespace exactly when a persistent run got through the code and the filter, even if `str(__return__)` then raises and the run fails; success exactly when the code, the filter and `str` all returned, with the shown value and the saved names; a failed run reports nothing else |
| PySessions.RunKeepsStoreAllowed | mcp_link_blender/mcp_integration.py:384-397 | stored sessions never hold names that start with `_`, nor `bpy`, `mathutils` or `mcp` |
| PySessions.RestoreKeepsHost | mcp_link_blender/mcp_integration.py:367-377 | restoring a session never shadows `bpy`, `mathutils`, `mcp`, `__name__` or `__file__`; every other name comes from the session |
| PySessions.Sessions.constructor | mcp_link_blender/mcp_integration.py:37 | the store starts empty |
| PySessions.Sessions.Run | mcp_link_blender/mcp_integration.py:361-437 | a run updates the store in place as `RunPython` says, including a session stored before a failing report step, and keeps every session free of reserved names |

## Left out

- Spawning the helper process, the 5-second deadline, and `terminate`/`kill`. The model reads a byte sequence that has already been obtained. A deadline that expires is modelled as output that ends early.
- Reading the native-messaging manifest (`_find_native_messaging_manifest`, `_read_manifest`). This is a filesystem lookup over platform paths.
- HTTP and HTTPS connections, SSL contexts, headers, POST bodies, and the status check on the event stream's response. The POST status and the stream's lines are inputs.
- Threads, locks, `threading.Event`, queue timeouts and joins. The reader, the listener and the timer run one after another here. A queue wait that times out is a wait during which nothing arrives. A tool handler that times out after 120 seconds is a handler that raised.
- JSON parsing and serialisation, UTF-8 decoding, and the rest of the regular-expression engine are library calls. They are parameters or written-out matchers.
- `exec`/`compile`, attribute navigation into `bpy`, calls with `args`/`kwargs`, and stdout/stderr capture. These are host-runtime reflection. `exec` is a parameter. Navigation ends the model at the list of attribute names.
- The JSON text of result envelopes built with `json.dumps`: the Python result data, the API call result text, and the `call_tool` result. Only the `isError` flag and the fixed error texts are modelled.
- Bridge.WorkQueue.ProcessTick: only exceptions derived from `Exception` are modelled. A `BaseException` that is not one (`exit()`, `sys.exit()`, KeyboardInterrupt) passes through the handlers at lines 333, 423 and 89. After the `finally` at lines 105-106 releases the lock, it leaves the tick. The tick then puts no result for its item and leaves the rest of the batch queued; the caller's 120-second wait at line 282 then ends with `queue.Empty`. The model's handler always returns or raises an `Exception`. So `Tick`, `TicksDrain` and `QueueEmptiesIn` state that every item taken is answered, which holds only for code that does not raise such an exception.
- PySessions.Executed: `exec` either returns or raises an `Exception`. Code that raises `SystemExit` or another non-`Exception` `BaseException` escapes the `except` at line 423, which the model does not represent (see `Bridge.WorkQueue.ProcessTick`).
- PySessions.RunPython: the store maps names to values that never change. A session is restored with `update` (line 377), which shares the stored objects with the namespace. So code that mutates a restored list or dict in place changes the stored session even when the run then fails. The model does not capture that mutation; `RunTouchesOwnSession` states which value each stored name is bound to, not what happens to the object's contents.
- PySessions.Sessions.Run: it has the same gap as `PySessions.RunPython`. In-place mutation of restored objects is not modelled.
- PySessions.Sessions: session ids are compared as JSON values. Python also treats `1`, `1.0` and `True` as the same dictionary key.
- The registration parameters, the tool description and readme, logging, timer registration, `start`/`stop`, auto-connect, and `MCPBridge.call`. These are wiring around the modelled operations.
- `call_mcp_tool` returns None without a session. This is a one-line guard in front of `Stream.Session.SendRequest`.
- `_send_tool_reply`'s POST and its status are not modelled. The reply object it posts is `Client.ToolReply`.
- `config.MAX_RETRY_DELAY` is never read: the client hard-codes 60 seconds.
- The handshake's `elif line == ''` branch is not modelled. Its `if message_endpoint` test can never be true there, because the endpoint is only set just before the loop is left.
- `self.auth_header` is kept from one connection attempt to the next. The model reads the credential of the current configuration only (`Fallback.AuthHeader`).
- Reconnect.Supervisor.Run: states the number of waits and their bounds. It does not state each pass's counter value, which `RunPass` does.

## Notes on the code

- The session id is `split('session_id=')[1].split('&')[0]`. It therefore ends at the next `&` or at a second `session_id=`, whichever comes first. The docstrings mention only the `&`; the model follows the code (`Handshake.SessionIdOf`).
- The reader thread has no handler for a JSON payload that is a number, a boolean or null: `'reverse' in` raises TypeError and the thread ends. The model follows the code (`Stream.ScalarEndsReader`). For a string payload `in` is a substring check, and for a list payload an element check.
- `_handle_api_call` accepts the bare path `bpy`, because its first segment is `bpy`. The error text "must start with 'bpy.'" suggests otherwise.
