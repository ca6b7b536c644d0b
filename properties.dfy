/** What the chat loop promises, stated over the transition functions of
    module Chat: one lemma group per arm of the loop body, then properties of
    whole runs, then the unknown-sender defect of the gossip arm. */
module Properties {
  import opened Text
  import opened Chat

  // ---------------------------------------------------------------------
  // Setup
  // ---------------------------------------------------------------------

  /** After setup the directory holds exactly one entry: the local peer,
      mapped to the nickname the user entered. Nothing was printed or
      published yet. */
  lemma InitHasOnlyLocalPeer(localPeer: PeerId, nickname: string)
    ensures forall p :: p in Init(localPeer, nickname).nicknames <==> p == localPeer
    ensures Init(localPeer, nickname).nicknames[localPeer] == nickname
    ensures Init(localPeer, nickname).explicitPeers == {}
    ensures Init(localPeer, nickname).output == [] && Init(localPeer, nickname).published == []
  {
  }

  // ---------------------------------------------------------------------
  // The stdin branch
  // ---------------------------------------------------------------------

  /** A line made only of whitespace changes nothing: no publication, no
      output, same directory. */
  lemma BlankLineIsIgnored(s: State, line: string, now: string, publishOk: bool)
    requires AllWhitespace(line)
    ensures LineStep(s, line, now, publishOk) == s
  {
    BlankIffAllWhitespace(line);
  }

  /** A line with a non-whitespace character is echoed once under the local
      nickname and published once, on the chat topic, with the untrimmed line
      as content and the clock reading as timestamp. Nothing else changes. */
  lemma LineIsEchoedAndPublished(s: State, line: string, now: string)
    requires !AllWhitespace(line)
    ensures LineStep(s, line, now, true).output
            == s.output + ["<" + s.nickname + " (You)>: " + line]
    ensures LineStep(s, line, now, true).published
            == s.published + [Publication("babaclat-chat", ChatMessage(line, now))]
    ensures LineStep(s, line, now, true).nicknames == s.nicknames
    ensures LineStep(s, line, now, true).explicitPeers == s.explicitPeers
    ensures LineStep(s, line, now, true).nickname == s.nickname
  {
    BlankIffAllWhitespace(line);
  }

  /** When publishing fails, the echo is followed by exactly one error line
      naming the failed content; nothing is published and the rest of the
      state is unchanged, so the loop goes on. */
  lemma FailedPublishIsReported(s: State, line: string, now: string)
    requires !AllWhitespace(line)
    ensures LineStep(s, line, now, false).output
            == s.output + ["<" + s.nickname + " (You)>: " + line,
                           "<" + s.nickname + " (You)> " + line + " - Could not send message"]
    ensures LineStep(s, line, now, false).published == s.published
    ensures LineStep(s, line, now, false).nicknames == s.nicknames
    ensures LineStep(s, line, now, false).explicitPeers == s.explicitPeers
    ensures LineStep(s, line, now, false).nickname == s.nickname
  {
    BlankIffAllWhitespace(line);
  }

  // ---------------------------------------------------------------------
  // The identify arm
  // ---------------------------------------------------------------------

  /** identify `Received` names the peer by its agent version, overwriting an
      earlier name, keeps every other entry, and announces the peer. */
  lemma IdentifySetsOneEntry(s: State, peer: PeerId, agentVersion: string)
    ensures peer in IdentifyStep(s, peer, agentVersion).nicknames
    ensures IdentifyStep(s, peer, agentVersion).nicknames[peer] == agentVersion
    ensures forall q :: q != peer ==>
              (q in IdentifyStep(s, peer, agentVersion).nicknames <==> q in s.nicknames)
    ensures forall q :: q != peer && q in s.nicknames ==>
              IdentifyStep(s, peer, agentVersion).nicknames[q] == s.nicknames[q]
    ensures IdentifyStep(s, peer, agentVersion).output
            == s.output + [agentVersion + " joined the chat"]
    ensures IdentifyStep(s, peer, agentVersion).explicitPeers == s.explicitPeers
    ensures IdentifyStep(s, peer, agentVersion).published == s.published
  {
  }

  /** The same identify event applied twice leaves the directory as once. */
  lemma IdentifyIsIdempotentOnDirectory(s: State, peer: PeerId, agentVersion: string)
    ensures IdentifyStep(IdentifyStep(s, peer, agentVersion), peer, agentVersion).nicknames
            == IdentifyStep(s, peer, agentVersion).nicknames
  {
  }

  // ---------------------------------------------------------------------
  // The connection-closed arm
  // ---------------------------------------------------------------------

  /** The notice condition: a cause whose debug text contains the reset
      marker, for a peer the directory names. */
  ghost predicate LeftNoticeDue(s: State, peer: PeerId, cause: Option<string>) {
    && cause.Some?
    && (exists i :: OccursAt(cause.value, "code: 10054", i))
    && peer in s.nicknames
  }

  /** `ConnectionClosed` prints `<name> left the chat` exactly when the notice
      is due, changes nothing otherwise, and never touches the directory. */
  lemma ClosedNoticeOnlyOnReset(s: State, peer: PeerId, cause: Option<string>)
    ensures ClosedStep(s, peer, cause).nicknames == s.nicknames
    ensures LeftNoticeDue(s, peer, cause) ==>
              ClosedStep(s, peer, cause).output == s.output + [s.nicknames[peer] + " left the chat"]
    ensures !LeftNoticeDue(s, peer, cause) ==> ClosedStep(s, peer, cause) == s
    ensures ClosedStep(s, peer, cause).explicitPeers == s.explicitPeers
    ensures ClosedStep(s, peer, cause).published == s.published
  {
    if cause.Some? {
      ContainsIff(cause.value, ResetMarker);
    }
  }

  // ---------------------------------------------------------------------
  // The mDNS arm
  // ---------------------------------------------------------------------

  /** mDNS `Discovered` makes every listed peer, and only those, an explicit
      gossip peer; the directory, the output and the publications stay. */
  lemma DiscoveredAddsListedPeers(s: State, list: seq<(PeerId, Multiaddr)>)
    ensures forall p :: p in DiscoveredStep(s, list).explicitPeers <==>
              p in s.explicitPeers || exists i :: 0 <= i < |list| && list[i].0 == p
    ensures DiscoveredStep(s, list).nicknames == s.nicknames
    ensures DiscoveredStep(s, list).output == s.output
    ensures DiscoveredStep(s, list).published == s.published
  {
  }

  // ---------------------------------------------------------------------
  // The gossip arm
  // ---------------------------------------------------------------------

  /** A payload that does not decode is dropped: no state change, in the
      handler as written and in the corrected one. */
  lemma UndecodableIsDropped(s: State, source: PeerId, data: Bytes, decode: Decoder)
    requires decode(data).None?
    ensures GossipStepAsWritten(s, source, data, decode) == s
    ensures GossipStep(s, source, data, decode) == s
  {
  }

  /** A decoded message is rendered once as `<sender> content`: the sender is
      the forwarder's nickname, or its peer id when it has none. */
  lemma DecodedIsRendered(s: State, source: PeerId, data: Bytes, decode: Decoder, m: ChatMessage)
    requires decode(data) == Some(m)
    ensures source in s.nicknames ==>
              GossipStep(s, source, data, decode).output
              == s.output + ["<" + s.nicknames[source] + "> " + m.content]
    ensures source !in s.nicknames ==>
              GossipStep(s, source, data, decode).output
              == s.output + ["<" + source.base58 + "> " + m.content]
    ensures GossipStep(s, source, data, decode).nicknames == s.nicknames
    ensures GossipStep(s, source, data, decode).explicitPeers == s.explicitPeers
    ensures GossipStep(s, source, data, decode).published == s.published
  {
  }

  // ---------------------------------------------------------------------
  // Whole runs
  // ---------------------------------------------------------------------

  /** `t` extends `s`: same local nickname, no directory key lost, no
      explicit peer lost, and the output and publications only appended to. */
  predicate Extends(s: State, t: State) {
    && t.nickname == s.nickname
    && s.nicknames.Keys <= t.nicknames.Keys
    && s.explicitPeers <= t.explicitPeers
    && s.output <= t.output
    && s.published <= t.published
  }

  lemma ExtendsTransitive(s: State, t: State, u: State)
    requires Extends(s, t) && Extends(t, u)
    ensures Extends(s, u)
  {
    assert s.output == t.output[..|s.output|] == u.output[..|s.output|];
    assert s.published == t.published[..|s.published|] == u.published[..|s.published|];
  }

  /** No arm removes a directory entry or an explicit peer, or takes back a
      printed line or a publication. */
  lemma StepExtends(s: State, e: Event, decode: Decoder)
    ensures Extends(s, Step(s, e, decode))
  {
  }

  /** Over any run the directory's key set only grows, and so do the explicit
      peers, the output and the publications. */
  lemma {:induction false} RunExtends(s: State, events: seq<Event>, decode: Decoder)
    ensures Extends(s, Run(s, events, decode))
    decreases |events|
  {
    if events != [] {
      var pre := events[..|events| - 1];
      RunExtends(s, pre, decode);
      StepExtends(Run(s, pre, decode), events[|events| - 1], decode);
      ExtendsTransitive(s, Run(s, pre, decode), Run(s, events, decode));
    }
  }

  /** The local peer stays in the directory for the whole session. */
  lemma LocalPeerStaysNamed(localPeer: PeerId, nickname: string, events: seq<Event>, decode: Decoder)
    ensures localPeer in Run(Init(localPeer, nickname), events, decode).nicknames
  {
    RunExtends(Init(localPeer, nickname), events, decode);
  }

  /** The publication a stdin event causes, if any. */
  function SentBy(e: Event): seq<Publication> {
    if e.StdinLine? && !AllWhitespace(e.line) && e.publishOk then
      [Publication(ChatTopic, ChatMessage(e.line, e.now))]
    else
      []
  }

  /** The publications a sequence of events causes, in order. */
  function Sent(events: seq<Event>): seq<Publication>
    decreases |events|
  {
    if events == [] then []
    else Sent(events[..|events| - 1]) + SentBy(events[|events| - 1])
  }

  /** One iteration publishes what `SentBy` says it does. */
  lemma StepPublishes(t: State, e: Event, decode: Decoder)
    ensures Step(t, e, decode).published == t.published + SentBy(e)
  {
    if e.StdinLine? {
      BlankIffAllWhitespace(e.line);
    }
  }

  /** Every non-blank line whose publish succeeds is published exactly once,
      in the order typed, and nothing else is ever published. */
  lemma {:induction false} PublishedAreSentLines(s: State, events: seq<Event>, decode: Decoder)
    ensures Run(s, events, decode).published == s.published + Sent(events)
    decreases |events|
  {
    if events != [] {
      var pre := events[..|events| - 1];
      var e := events[|events| - 1];
      PublishedAreSentLines(s, pre, decode);
      StepPublishes(Run(s, pre, decode), e, decode);
      assert Run(s, events, decode) == Step(Run(s, pre, decode), e, decode);
      assert Sent(events) == Sent(pre) + SentBy(e);
    }
  }

  /** Every publication of a session goes to the chat topic and carries a
      content that is not blank. */
  predicate PublicationsWellFormed(s: State) {
    forall i :: 0 <= i < |s.published| ==>
      s.published[i].topic == ChatTopic && !AllWhitespace(s.published[i].message.content)
  }

  lemma {:induction false} SentWellFormed(events: seq<Event>)
    ensures forall i :: 0 <= i < |Sent(events)| ==>
              Sent(events)[i].topic == ChatTopic && !AllWhitespace(Sent(events)[i].message.content)
    decreases |events|
  {
    if events != [] {
      SentWellFormed(events[..|events| - 1]);
    }
  }

  lemma RunKeepsPublicationsWellFormed(s: State, events: seq<Event>, decode: Decoder)
    requires PublicationsWellFormed(s)
    ensures PublicationsWellFormed(Run(s, events, decode))
  {
    PublishedAreSentLines(s, events, decode);
    SentWellFormed(events);
    var r := Run(s, events, decode);
    forall i | 0 <= i < |r.published|
      ensures r.published[i].topic == ChatTopic && !AllWhitespace(r.published[i].message.content)
    {
      if i >= |s.published| {
        assert r.published[i] == Sent(events)[i - |s.published|];
      }
    }
  }

  // ---------------------------------------------------------------------
  // The unknown-sender defect
  // ---------------------------------------------------------------------

  /** The `k`-th event is a gossip message whose `unwrap` fails in the state
      the events before it lead to. */
  ghost predicate PanicsAt(s: State, events: seq<Event>, decode: Decoder, k: int) {
    && 0 <= k < |events|
    && events[k].GossipMessage?
    && UnwrapPanics(Run(s, events[..k], decode), events[k].propagationSource, events[k].data, decode)
  }

  /** One iteration of the loop as written reaches the gossip arm's `unwrap`
      panic exactly on a decodable gossip payload from an unnamed forwarder, and otherwise agrees with the
      corrected iteration. */
  lemma StepAsWrittenAgrees(t: State, e: Event, decode: Decoder)
    ensures StepAsWritten(t, e, decode).Panicked? <==>
              e.GossipMessage? && UnwrapPanics(t, e.propagationSource, e.data, decode)
    ensures StepAsWritten(t, e, decode).Running? ==>
              StepAsWritten(t, e, decode).state == Step(t, e, decode)
  {
  }

  /** Appending one event to a run is one more iteration. */
  lemma RunSnoc(s: State, events: seq<Event>, e: Event, decode: Decoder)
    ensures Run(s, events + [e], decode) == Step(Run(s, events, decode), e, decode)
  {
    assert (events + [e])[..|events|] == events;
  }

  /** A panic point before the last event is a panic point of the prefix. */
  lemma PanicsAtPrefix(s: State, events: seq<Event>, decode: Decoder, k: int)
    requires 0 <= k < |events| - 1
    ensures PanicsAt(s, events, decode, k) <==> PanicsAt(s, events[..|events| - 1], decode, k)
  {
    assert events[..k] == events[..|events| - 1][..k];
  }

  /** The loop as written and the corrected loop agree until the `unwrap` of
      the gossip arm panics, and that happens exactly when some gossip event
      has a decodable payload from a forwarder the directory does not name at
      that point. */
  lemma {:induction false} RunAsWrittenAgrees(s: State, events: seq<Event>, decode: Decoder)
    ensures RunAsWritten(s, events, decode).Panicked? <==> exists k :: PanicsAt(s, events, decode, k)
    ensures RunAsWritten(s, events, decode).Running? ==>
              RunAsWritten(s, events, decode).state == Run(s, events, decode)
    decreases |events|
  {
    if events != [] {
      var n := |events|;
      var pre := events[..n - 1];
      var last := events[n - 1];
      RunAsWrittenAgrees(s, pre, decode);
      var prior := RunAsWritten(s, pre, decode);
      if prior.Panicked? {
        var k :| PanicsAt(s, pre, decode, k);
        PanicsAtPrefix(s, events, decode, k);
        assert RunAsWritten(s, events, decode) == Panicked;
      } else {
        var t := Run(s, pre, decode);
        assert prior == Running(t);
        StepAsWrittenAgrees(t, last, decode);
        assert RunAsWritten(s, events, decode) == StepAsWritten(t, last, decode);
        assert PanicsAt(s, events, decode, n - 1) <==>
               last.GossipMessage? && UnwrapPanics(t, last.propagationSource, last.data, decode);
        forall k | PanicsAt(s, events, decode, k) ensures k == n - 1 {
          if k < n - 1 {
            PanicsAtPrefix(s, events, decode, k);
          }
        }
      }
    }
  }

  /** A peer found by mDNS but never identified makes the loop as written
      panic on its first decodable gossip message, right after setup. */
  lemma DiscoveredPeerMessagePanics(localPeer: PeerId, nickname: string, peer: PeerId,
                                    addr: Multiaddr, data: Bytes, decode: Decoder)
    requires peer != localPeer && decode(data).Some?
    ensures RunAsWritten(Init(localPeer, nickname),
                         [Discovered([(peer, addr)]), GossipMessage(peer, None, data)],
                         decode) == Panicked
  {
    var s := Init(localPeer, nickname);
    var e1, e2 := Discovered([(peer, addr)]), GossipMessage(peer, None, data);
    RunSnoc(s, [], e1, decode);
    assert [] + [e1] == [e1] == [e1, e2][..1];
    RunAsWrittenAgrees(s, [e1, e2], decode);
    assert PanicsAt(s, [e1, e2], decode, 1);
  }

  /** The lookup uses the forwarding peer, not the author: a message whose
      author is named still panics when it arrives through an unnamed peer.
      The corrected loop renders it under the forwarder's peer id. */
  lemma ForwardedMessagePanics(localPeer: PeerId, nickname: string, author: PeerId, name: string,
                               forwarder: PeerId, addr: Multiaddr, data: Bytes, decode: Decoder,
                               m: ChatMessage)
    requires forwarder != localPeer && forwarder != author && decode(data) == Some(m)
    ensures author in Run(Init(localPeer, nickname),
                          [Identified(author, name), Discovered([(forwarder, addr)])],
                          decode).nicknames
    ensures RunAsWritten(Init(localPeer, nickname),
                         [Identified(author, name), Discovered([(forwarder, addr)]),
                          GossipMessage(forwarder, Some(author), data)],
                         decode) == Panicked
    ensures Run(Init(localPeer, nickname),
                [Identified(author, name), Discovered([(forwarder, addr)]),
                 GossipMessage(forwarder, Some(author), data)],
                decode).output
            == [name + " joined the chat", "<" + forwarder.base58 + "> " + m.content]
  {
    var s := Init(localPeer, nickname);
    var e1, e2, e3 := Identified(author, name), Discovered([(forwarder, addr)]),
                      GossipMessage(forwarder, Some(author), data);
    RunSnoc(s, [], e1, decode);
    assert [] + [e1] == [e1];
    RunSnoc(s, [e1], e2, decode);
    assert [e1] + [e2] == [e1, e2];
    RunSnoc(s, [e1, e2], e3, decode);
    assert [e1, e2] + [e3] == [e1, e2, e3];
    assert [e1, e2, e3][..2] == [e1, e2];
    RunAsWrittenAgrees(s, [e1, e2, e3], decode);
    assert PanicsAt(s, [e1, e2, e3], decode, 2);
  }

  /** Two sessions, Alice's and Bob's: once Bob has identified Alice, her
      `hi` reaches Bob's console as exactly `<Alice> hi`, in the loop as
      written and in the corrected one. */
  lemma AliceSaysHiToBob(alice: PeerId, bob: PeerId, data: Bytes, decode: Decoder, now: string)
    requires alice != bob && decode(data) == Some(ChatMessage("hi", now))
    ensures RunAsWritten(Init(bob, "Bob"),
                         [Identified(alice, "Alice"), GossipMessage(alice, Some(alice), data)],
                         decode)
            == Running(Run(Init(bob, "Bob"),
                           [Identified(alice, "Alice"), GossipMessage(alice, Some(alice), data)],
                           decode))
    ensures Run(Init(bob, "Bob"),
                [Identified(alice, "Alice"), GossipMessage(alice, Some(alice), data)],
                decode).output
            == ["Alice joined the chat", "<Alice> hi"]
  {
    var s := Init(bob, "Bob");
    var e1, e2 := Identified(alice, "Alice"), GossipMessage(alice, Some(alice), data);
    RunSnoc(s, [], e1, decode);
    assert [] + [e1] == [e1] == [e1, e2][..1];
    RunSnoc(s, [e1], e2, decode);
    assert [e1] + [e2] == [e1, e2];
    var s1 := IdentifyStep(s, alice, "Alice");
    assert Run(s, [e1], decode) == s1;
    assert Run(s, [e1, e2], decode) == GossipStep(s1, alice, data, decode);
    assert SenderLabel(s1, alice) == "Alice";
    assert JoinedLine("Alice") == "Alice joined the chat" && ChatLine("Alice", "hi") == "<Alice> hi";
    assert GossipStep(s1, alice, data, decode).output == [JoinedLine("Alice"), ChatLine("Alice", "hi")];
    RunAsWrittenAgrees(s, [e1], decode);
    assert RunAsWritten(s, [e1, e2], decode) == StepAsWritten(s1, e2, decode);
  }
}
