# babaclat chat loop, modelled in Dafny

babaclat is a terminal peer-to-peer chat client built on libp2p. After
setup, `main` runs one loop. Each iteration takes either a line typed on
stdin or an event from the libp2p swarm, and handles it. That loop body is
what this project models:

- a stdin line that is not blank is echoed as `<nick (You)>: line` and
  published on the gossipsub topic `babaclat-chat` as a `ChatMessage`
  (content and timestamp); if publishing fails, an error line follows;
- identify `Received` stores the peer's agent version as its nickname and
  announces `<name> joined the chat`;
- `ConnectionClosed` announces `<name> left the chat` for a known peer,
  but only when the error's debug text contains `code: 10054`;
- mDNS `Discovered` adds every listed peer as an explicit gossipsub peer;
- a gossipsub `Message` whose payload decodes is printed as
  `<sender> content`, where the sender is the nickname of the forwarding
  peer; a payload that does not decode is dropped;
- every other event is ignored.

Files:

- `text.dfy` (module `Text`): Rust's `str::trim` and `str::contains`, with
  the facts the loop needs. A line is blank exactly when every character is
  Unicode whitespace. The contains scan succeeds exactly when the pattern
  occurs somewhere.
- `chat.dfy` (module `Chat`): the values. These are the `ChatMessage` record,
  the events, and the session state: the local nickname, the nickname
  directory, the explicit peers, the printed lines and the publications.
  It also holds the console lines and the loop body as a transition function
  `Step`. `Run` applies a sequence of events. `StepAsWritten` and
  `RunAsWritten` model the gossip arm as written in the client, whose
  `unwrap` can panic.
- `session.dfy` (module `Session`): class `ChatSession`. Its fields are the
  directory (`map`), the explicit peers (`set`), the printed lines and the
  publications (`seq`). Each handler method updates them in place and is
  proved to move the abstract state `Snapshot()` exactly as `Chat` says.
  `Dispatch` is one loop iteration. `Serve` runs the loop over a finite
  sequence of events.
- `properties.dfy` (module `Properties`): what the loop promises, proved
  about `Chat`'s functions. There is one lemma group per arm. Then come
  whole-run properties: the directory and the other state only grow, and
  exactly the sent lines are published. Last comes the unknown-sender defect.

External inputs become parameters:

- `tokio::select!` picks the next event. The model takes the events as input,
  in the order the loop receives them.
- The clock reading `Utc::now().to_rfc3339()` is a string in the stdin event.
- The transport's answer to `publish` is a boolean in the stdin event.
- Payload decoding (UTF-8 check, then `serde_json` parse) is a function
  parameter `decode: Bytes -> Option<ChatMessage>`, and nothing else is
  assumed about it.

Three facts about the loop shape the model:

- No arm handles mDNS `Expired` (src/main.rs:198-236). Such an event falls
  into the ignored default arm (src/main.rs:235).
- `ConnectionClosed` never removes a directory entry (src/main.rs:204-214),
  so no handler ever removes one.
- The gossip arm unwraps the directory lookup of the forwarding peer
  (src/main.rs:227). It has no fallback label. The as-written model keeps
  the panic, and the corrected model adds the fallback (see Findings).

## Model

| member | source | states |
|---|---|---|
| `Text.SkipWhitespace` | src/main.rs:165 | the index reached is the first one at or after the start that is not whitespace, or the end; everything skipped is whitespace |
| `Text.SkipWhitespaceBack` | src/main.rs:165 | the index reached is just past the last character before the end that is not whitespace, but not below the lower bound; everything skipped is whitespace |
| `Text.Trim` | src/main.rs:165 | the trimmed line is the slice of the line left after cutting whitespace from both ends: everything before and after it is whitespace, and when not empty it neither starts nor ends with whitespace |
| `Text.BlankIffAllWhitespace` | src/main.rs:165 | `line.trim().is_empty()` holds exactly when every character of the line is whitespace |
| `Text.ContainsIff` | src/main.rs:206-207 | the `contains` scan succeeds exactly when the pattern occurs at some index of the text |
| `Session.ChatSession.constructor` | src/main.rs:94-96 | the new session is `Init`: the directory holds only the local peer under the entered nickname, and there are no explicit peers, output or publications |
| `Session.ChatSession.HandleLine` | src/main.rs:164-196 | the stdin branch moves the state exactly as `LineStep` (published on the session's fixed topic, src/main.rs:143) |
| `Session.ChatSession.HandleIdentify` | src/main.rs:199-203 | the identify arm moves the state exactly as `IdentifyStep` |
| `Session.ChatSession.HandleConnectionClosed` | src/main.rs:204-213 | the connection-closed arm moves the state exactly as `ClosedStep` |
| `Session.ChatSession.HandleDiscovered` | src/main.rs:215-219 | the loop over the discovered list adds the listed peers one by one, and the result is `DiscoveredStep` |
| `Session.ChatSession.HandleGossipMessage` | src/main.rs:220-234 | the gossip arm as written: it needs the forwarder in the directory whenever the payload decodes, and then moves the state as `GossipStepAsWritten` |
| `Session.ChatSession.HandleGossipMessageWithFallback` | src/main.rs:220-234 | the corrected gossip arm needs nothing and moves the state as `GossipStep` |
| `Session.ChatSession.Dispatch` | src/main.rs:198-236 | one loop iteration moves the state as `Step`; any other event leaves it alone |
| `Session.ChatSession.Serve` | src/main.rs:162-238 | the loop over a sequence of events moves the state as `Run` |
| `Properties.InitHasOnlyLocalPeer` | src/main.rs:94-96 | after setup the directory has exactly one key, the local peer, mapped to the entered nickname; nothing is printed or published yet |
| `Properties.BlankLineIsIgnored` | src/main.rs:165 | a line of only whitespace leaves the whole state unchanged: no output, no publication |
| `Properties.LineIsEchoedAndPublished` | src/main.rs:165-185 | a non-blank line is echoed once as `<nick (You)>: line` and published once on `babaclat-chat` with the untrimmed line as content and the clock reading as timestamp; directory and explicit peers unchanged |
| `Properties.FailedPublishIsReported` | src/main.rs:179-195 | on a failed publish the echo is followed by exactly one `<nick (You)> line - Could not send message` line; nothing is published and the rest of the state is unchanged |
| `Properties.IdentifySetsOneEntry` | src/main.rs:199-203 | identify sets the peer's entry to its agent version, keeps every other entry and key, and appends `<agent> joined the chat` |
| `Properties.IdentifyIsIdempotentOnDirectory` | src/main.rs:200 | the same identify event applied twice leaves the directory as applying it once |
| `Properties.ClosedNoticeOnlyOnReset` | src/main.rs:204-213 | `<name> left the chat` is appended exactly when there is a cause, its debug text contains `code: 10054`, and the peer is named; otherwise nothing changes; the directory never changes |
| `Properties.DiscoveredAddsListedPeers` | src/main.rs:215-219 | after mDNS discovery a peer is explicit exactly when it was before or is listed; directory, output and publications unchanged |
| `Properties.UndecodableIsDropped` | src/main.rs:225-226 | a payload that does not decode leaves the state unchanged, in the arm as written and in the corrected one |
| `Properties.DecodedIsRendered` | src/main.rs:225-231 | a decoded message appends exactly `<sender> content`, where the sender is the forwarder's nickname, or its peer id when it has none; nothing else changes |
| `Properties.StepExtends` | src/main.rs:198-236 | no arm removes a directory key or an explicit peer, changes the local nickname, or takes back output or publications |
| `Properties.RunExtends` | src/main.rs:95-236 | over any run the directory's key set only grows, as do the explicit peers, and the output and publications are only appended to |
| `Properties.LocalPeerStaysNamed` | src/main.rs:96 | the local peer stays in the directory for the whole session |
| `Properties.StepPublishes` | src/main.rs:183-185 | one iteration publishes exactly what `SentBy` gives for its event: one record for a non-blank line whose publish succeeds, nothing otherwise |
| `Properties.PublishedAreSentLines` | src/main.rs:164-185 | after any run the publications are the earlier ones followed by one record per non-blank, successfully published line, in order; nothing else is published |
| `Properties.RunKeepsPublicationsWellFormed` | src/main.rs:143-185 | every publication goes to `babaclat-chat` and has non-blank content |
| `Properties.StepAsWrittenAgrees` | src/main.rs:220-234 | one iteration as written reaches the gossip `unwrap` panic exactly on a decodable payload from an unnamed forwarder, and otherwise matches the corrected iteration (terminal write failures are not modelled) |
| `Properties.RunAsWrittenAgrees` | src/main.rs:162-236 | the loop as written reaches the gossip `unwrap` panic exactly when some gossip event has a decodable payload from a forwarder the directory does not name at that point; until then it matches the corrected loop (terminal write failures are not modelled) |
| `Properties.DiscoveredPeerMessagePanics` | src/main.rs:215-227 | right after setup, an mDNS-discovered peer that was never identified makes the loop as written panic on its first decodable message |
| `Properties.ForwardedMessagePanics` | src/main.rs:199-227 | the lookup uses the forwarder, not the author: a message from a named author, relayed by an unnamed peer, still panics; the corrected loop prints it under the forwarder's peer id |
| `Properties.AliceSaysHiToBob` | src/main.rs:199-231 | once Bob has identified Alice, her `hi` prints exactly `<Alice> hi` on Bob's console, in the loop as written and in the corrected one |

## Findings

| source | as written | input that shows it | evidently intended | confidence | as-written member | corrected member |
|---|---|---|---|---|---|---|
| src/main.rs:227 | `nicknames.get(&propagation_source).unwrap()` panics when the forwarding peer has no directory entry | setup, then mDNS `Discovered([(p, a)])`, then a gossip `Message` from `p` whose payload decodes; or an author identified but relayed by an unidentified peer | render the message under a fallback label, here the peer id, and keep the session running | not executed | `Properties.DiscoveredPeerMessagePanics` | `Properties.DecodedIsRendered` |

Notes on the finding:

- Where the defect sits: `Session.ChatSession.HandleGossipMessage` and
  `Chat.GossipStepAsWritten` model the arm as written, with the `unwrap`
  as a precondition. `Chat.StepAsWritten` and `Chat.RunAsWritten` turn the
  same failure into a `Panicked` outcome.
- The second counterexample, `Properties.ForwardedMessagePanics`, shows
  that even an identified author does not help, since the lookup uses the
  forwarding peer.
- The fix: `Chat.GossipStep` and
  `Session.ChatSession.HandleGossipMessageWithFallback` label an unnamed
  forwarder by its peer id. `Chat.Step`, `Chat.Run`, `Dispatch` and `Serve`
  use this corrected arm.
- `Properties.RunAsWrittenAgrees` proves the two loops differ only at the
  panic.

## Left out

- Identity key loading, generation and protobuf encoding (src/main.rs:71-92): filesystem I/O and foreign crypto encoding.
- The libp2p swarm, its behaviours and transports, the gossipsub configuration, the `subscribe` call and the listen addresses (src/main.rs:104-158): foreign library setup with nothing to state. The topic is kept as the constant `babaclat-chat`.
- The `DefaultHasher` message-id closure (src/main.rs:98-102): a foreign non-cryptographic hash.
- The UTF-8 check and the `serde_json` encoding and decoding (src/main.rs:171, 225-226): a publication records the `ChatMessage` before serialisation. The decoder is an arbitrary function, so the encode/decode round trip cannot be stated.
- `Utc::now()` (src/main.rs:168): the wall clock becomes a string in the stdin event.
- The reasons `publish` fails (no subscribed peers, duplicate message id, …) belong to gossipsub. The model takes only the success flag.
- What `add_explicit_peer` does besides set membership (dialling the peer) belongs to gossipsub.
- The terminal colours and the cursor movements (src/main.rs:173-177, 187-191) are left out. Output is the sequence of printed lines. The terminal erases the echo line before printing the send-error line, so on screen only the error line stays visible. The model keeps both printed lines.
- The banner, the nickname prompt and the startup progress lines (src/main.rs:44-69, 82, 86) are cosmetic I/O. They are not part of the modelled output.
- `select!` scheduling and async stdin (src/main.rs:160-164, 198) are concurrency. The events come in as an input sequence.
- Stdin read results other than a line (src/main.rs:164): a line that fails to read produces no event, and after end of input there are no more stdin events.
- Events the loop ignores, including mDNS `Expired`, are all the one `Other` event.
- The process exit a panic causes is the outcome `Panicked`. `Panicked` stands only for the `unwrap` at src/main.rs:227; its stderr message is not modelled.
- Terminal write failures are not modelled: the `unwrap` of `execute!` (src/main.rs:177, 191) and the `println!` calls (src/main.rs:181, 194, 202, 210, 231) also end the process when stdout cannot be written, and the model assumes every write succeeds.
- `Session.ChatSession.Serve`: models a finite prefix of the unbounded loop (src/main.rs:162), because only finitely many events are ever handled at any point.
