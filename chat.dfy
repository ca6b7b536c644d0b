/** Values of the chat session: the wire record, the events the loop reacts
    to, the session state, the console lines it prints, and the transition
    function of the loop body (src/main.rs:162-236) on those values. */
module Chat {
  import opened Text

  datatype Option<T> = None | Some(value: T)

  newtype byte = x: int | 0 <= x < 256
  type Bytes = seq<byte>

  /** A libp2p peer identifier, kept as its textual (base58) rendering. */
  datatype PeerId = PeerId(base58: string)

  /** A multiaddress reported by mDNS; the loop ignores it. */
  type Multiaddr = string

  /** The wire record `ChatMessage { content, timestamp }`. */
  datatype ChatMessage = ChatMessage(content: string, timestamp: string)

  /** One successful `gossipsub.publish(topic, payload)` call; the payload is
      kept as the record it serialises. */
  datatype Publication = Publication(topic: string, message: ChatMessage)

  /** The decoding of a gossip payload (UTF-8 check, then JSON parse);
      `None` stands for either failure. */
  type Decoder = Bytes -> Option<ChatMessage>

  /** The one topic the client subscribes and publishes to. */
  const ChatTopic: string := "babaclat-chat"

  /** The marker of an abrupt reset in a connection error's debug text. */
  const ResetMarker: string := "code: 10054"

  /** The inputs `select!` can hand to one iteration of the loop. The clock
      reading and the transport's answer to the publish call are part of the
      stdin event, since the loop only observes them while handling it. */
  datatype Event =
    | StdinLine(line: string, now: string, publishOk: bool)
    | Identified(peer: PeerId, agentVersion: string)
      /** `cause` is the `{:?}` rendering of the `ConnectionError`, if any. */
    | ConnectionClosed(peer: PeerId, cause: Option<string>)
    | Discovered(list: seq<(PeerId, Multiaddr)>)
    | GossipMessage(propagationSource: PeerId, author: Option<PeerId>, data: Bytes)
    | Other

  /** The session: the local nickname, the nickname directory, the
      gossipsub explicit peers, the printed lines and the publications. */
  datatype State = State(
    nickname: string,
    nicknames: map<PeerId, string>,
    explicitPeers: set<PeerId>,
    output: seq<string>,
    published: seq<Publication>)

  // Console lines, without their colours.

  function EchoLine(nickname: string, line: string): string {
    "<" + nickname + " (You)>: " + line
  }

  function SendErrorLine(nickname: string, line: string): string {
    "<" + nickname + " (You)> " + line + " - Could not send message"
  }

  function JoinedLine(name: string): string {
    name + " joined the chat"
  }

  function LeftLine(name: string): string {
    name + " left the chat"
  }

  function ChatLine(sender: string, content: string): string {
    "<" + sender + "> " + content
  }

  /** The state on entry to the loop: the directory names only the local peer. */
  function Init(localPeer: PeerId, nickname: string): State {
    State(nickname, map[localPeer := nickname], {}, [], [])
  }

  /** A line read from stdin. */
  function LineStep(s: State, line: string, now: string, publishOk: bool): State {
    if IsBlank(line) then s
    else
      var echoed := s.output + [EchoLine(s.nickname, line)];
      if publishOk then
        s.(output := echoed,
           published := s.published + [Publication(ChatTopic, ChatMessage(line, now))])
      else
        s.(output := echoed + [SendErrorLine(s.nickname, line)])
  }

  /** identify `Received`: the peer's agent version becomes its nickname. */
  function IdentifyStep(s: State, peer: PeerId, agentVersion: string): State {
    s.(nicknames := s.nicknames[peer := agentVersion],
       output := s.output + [JoinedLine(agentVersion)])
  }

  /** The connection was closed by an error whose debug text shows a reset. */
  predicate AbruptReset(cause: Option<string>) {
    cause.Some? && Contains(cause.value, ResetMarker)
  }

  /** `ConnectionClosed`: a notice for a known peer lost by a reset. */
  function ClosedStep(s: State, peer: PeerId, cause: Option<string>): State {
    if AbruptReset(cause) && peer in s.nicknames then
      s.(output := s.output + [LeftLine(s.nicknames[peer])])
    else
      s
  }

  /** The peer ids of an mDNS `Discovered` list. */
  function DiscoveredPeers(list: seq<(PeerId, Multiaddr)>): set<PeerId> {
    set i | 0 <= i < |list| :: list[i].0
  }

  /** mDNS `Discovered`: every listed peer becomes an explicit gossip peer. */
  function DiscoveredStep(s: State, list: seq<(PeerId, Multiaddr)>): State {
    s.(explicitPeers := s.explicitPeers + DiscoveredPeers(list))
  }

  /** The `unwrap` of the forwarder's nickname fails: the payload decodes but
      the forwarding peer has no directory entry. */
  predicate UnwrapPanics(s: State, source: PeerId, data: Bytes, decode: Decoder) {
    decode(data).Some? && source !in s.nicknames
  }

  /** gossipsub `Message` as written in the client: it needs the forwarding
      peer's nickname whenever the payload decodes. */
  function GossipStepAsWritten(s: State, source: PeerId, data: Bytes, decode: Decoder): State
    requires !UnwrapPanics(s, source, data, decode)
  {
    match decode(data)
    case None => s
    case Some(m) => s.(output := s.output + [ChatLine(s.nicknames[source], m.content)])
  }

  /** The label of a forwarding peer: its nickname, else its peer id. */
  function SenderLabel(s: State, source: PeerId): string {
    if source in s.nicknames then s.nicknames[source] else source.base58
  }

  /** gossipsub `Message` with the unknown-sender fallback: an unnamed
      forwarder is labelled by its peer id instead of aborting the session. */
  function GossipStep(s: State, source: PeerId, data: Bytes, decode: Decoder): State {
    match decode(data)
    case None => s
    case Some(m) => s.(output := s.output + [ChatLine(SenderLabel(s, source), m.content)])
  }

  /** One iteration of the loop, with the unknown-sender fallback. */
  function Step(s: State, e: Event, decode: Decoder): State {
    match e
    case StdinLine(line, now, ok) => LineStep(s, line, now, ok)
    case Identified(peer, agent) => IdentifyStep(s, peer, agent)
    case ConnectionClosed(peer, cause) => ClosedStep(s, peer, cause)
    case Discovered(list) => DiscoveredStep(s, list)
    case GossipMessage(source, _, data) => GossipStep(s, source, data, decode)
    case Other => s
  }

  /** The loop after the given events, in order. */
  function Run(s: State, events: seq<Event>, decode: Decoder): State
    decreases |events|
  {
    if events == [] then s
    else Step(Run(s, events[..|events| - 1], decode), events[|events| - 1], decode)
  }

  /** The process either keeps running or has panicked. */
  datatype Outcome = Running(state: State) | Panicked

  /** One iteration of the loop as written in the client: the gossip arm's
      `unwrap` panics when the forwarder is unnamed. Terminal write failures,
      which also end the process, are not modelled. */
  function StepAsWritten(s: State, e: Event, decode: Decoder): Outcome {
    match e
    case StdinLine(line, now, ok) => Running(LineStep(s, line, now, ok))
    case Identified(peer, agent) => Running(IdentifyStep(s, peer, agent))
    case ConnectionClosed(peer, cause) => Running(ClosedStep(s, peer, cause))
    case Discovered(list) => Running(DiscoveredStep(s, list))
    case GossipMessage(source, _, data) =>
      if UnwrapPanics(s, source, data, decode) then Panicked
      else Running(GossipStepAsWritten(s, source, data, decode))
    case Other => Running(s)
  }

  /** The client's loop as written, after the given events; the `unwrap`
      panic of the gossip arm ends it. */
  function RunAsWritten(s: State, events: seq<Event>, decode: Decoder): Outcome
    decreases |events|
  {
    if events == [] then Running(s)
    else
      match RunAsWritten(s, events[..|events| - 1], decode)
      case Panicked => Panicked
      case Running(t) => StepAsWritten(t, events[|events| - 1], decode)
  }
}
