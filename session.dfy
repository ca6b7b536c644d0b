/** The event loop of `main` as an object: the nickname directory, the
    explicit gossip peers, the printed lines and the publications are fields
    that each handler updates in place. Every handler is proved against the
    transition function of module Chat. */
module Session {
  import opened Text
  import opened Chat

  class ChatSession {
    const nickname: string
    /** The fixed pub/sub topic. */
    const topic: string := ChatTopic
    /** The payload decoder (UTF-8 check and JSON parse). */
    const decode: Decoder

    var nicknames: map<PeerId, string>
    var explicitPeers: set<PeerId>
    var output: seq<string>
    var published: seq<Publication>

    /** The abstract value of the session. */
    function Snapshot(): State
      reads this
    {
      State(nickname, nicknames, explicitPeers, output, published)
    }

    /** Directory seeding and topic creation before the loop starts. */
    constructor (localPeer: PeerId, nickname: string, decode: Decoder)
      ensures Snapshot() == Init(localPeer, nickname)
      ensures this.decode == decode
    {
      this.nickname := nickname;
      this.decode := decode;
      nicknames := map[];
      explicitPeers := {};
      output := [];
      published := [];
      new;
      nicknames := nicknames[localPeer := nickname];
    }

    /** The stdin branch; `publishOk` is the transport's answer to publish. */
    method HandleLine(line: string, now: string, publishOk: bool)
      modifies this
      ensures Snapshot() == LineStep(old(Snapshot()), line, now, publishOk)
    {
      if !IsBlank(line) {
        var message := ChatMessage(line, now);
        output := output + [EchoLine(nickname, line)];
        if publishOk {
          published := published + [Publication(topic, message)];
        } else {
          output := output + [SendErrorLine(nickname, line)];
        }
      }
    }

    /** The identify `Received` arm. */
    method HandleIdentify(peer: PeerId, agentVersion: string)
      modifies this
      ensures Snapshot() == IdentifyStep(old(Snapshot()), peer, agentVersion)
    {
      nicknames := nicknames[peer := agentVersion];
      output := output + [JoinedLine(agentVersion)];
    }

    /** The `ConnectionClosed` arm. */
    method HandleConnectionClosed(peer: PeerId, cause: Option<string>)
      modifies this
      ensures Snapshot() == ClosedStep(old(Snapshot()), peer, cause)
    {
      if cause.Some? {
        var errorString := cause.value;
        if Contains(errorString, ResetMarker) {
          if peer in nicknames {
            output := output + [LeftLine(nicknames[peer])];
          }
        }
      }
    }

    /** The mDNS `Discovered` arm: `add_explicit_peer` for each listed peer. */
    method HandleDiscovered(list: seq<(PeerId, Multiaddr)>)
      modifies this
      ensures Snapshot() == DiscoveredStep(old(Snapshot()), list)
    {
      for i := 0 to |list|
        invariant explicitPeers == old(explicitPeers) + DiscoveredPeers(list[..i])
        invariant nicknames == old(nicknames) && output == old(output)
        invariant published == old(published)
      {
        explicitPeers := explicitPeers + {list[i].0};
        assert DiscoveredPeers(list[..i + 1]) == DiscoveredPeers(list[..i]) + {list[i].0} by {
          assert forall j :: 0 <= j < i ==> list[..i + 1][j] == list[..i][j];
        }
      }
      assert list[..|list|] == list;
    }

    /** The gossipsub `Message` arm as written in the client: the `unwrap` of the
        forwarder's nickname is a precondition whenever the payload decodes. */
    method HandleGossipMessage(source: PeerId, data: Bytes)
      requires !UnwrapPanics(Snapshot(), source, data, decode)
      modifies this
      ensures Snapshot() == GossipStepAsWritten(old(Snapshot()), source, data, decode)
    {
      var parsed := decode(data);
      if parsed.Some? {
        var sender := nicknames[source];
        output := output + [ChatLine(sender, parsed.value.content)];
      }
    }

    /** The gossipsub `Message` arm with the unknown-sender fallback. */
    method HandleGossipMessageWithFallback(source: PeerId, data: Bytes)
      modifies this
      ensures Snapshot() == GossipStep(old(Snapshot()), source, data, decode)
    {
      var parsed := decode(data);
      if parsed.Some? {
        var sender := SenderLabel(Snapshot(), source);
        output := output + [ChatLine(sender, parsed.value.content)];
      }
    }

    /** One iteration of the loop: the event `select!` picked is dispatched
        to its arm; any other event is ignored. */
    method Dispatch(e: Event)
      modifies this
      ensures Snapshot() == Step(old(Snapshot()), e, decode)
    {
      match e
      case StdinLine(line, now, ok) => HandleLine(line, now, ok);
      case Identified(peer, agent) => HandleIdentify(peer, agent);
      case ConnectionClosed(peer, cause) => HandleConnectionClosed(peer, cause);
      case Discovered(list) => HandleDiscovered(list);
      case GossipMessage(source, _, data) => HandleGossipMessageWithFallback(source, data);
      case Other =>
    }

    /** The loop over a finite prefix of the events `select!` delivers; the
        choice of each next event is external, so the events are an input. */
    method Serve(events: seq<Event>)
      modifies this
      ensures Snapshot() == Run(old(Snapshot()), events, decode)
    {
      for i := 0 to |events|
        invariant Snapshot() == Run(old(Snapshot()), events[..i], decode)
      {
        Dispatch(events[i]);
        assert events[..i + 1][..i] == events[..i];
      }
      assert events[..|events|] == events;
    }
  }
}
