/** Properties of the call page over whole runs of inputs: the peer
    connection is never torn down, every signalling message goes to the
    room named at the time, each offer, welcome and local candidate produces
    exactly one emit, the chat list only grows, and every chat payload
    sent is also echoed locally. */
module AgentProofs {
  import opened Common
  import opened Agent

  predicate IsOfferEmit(o: Outbound) { o.SendOffer? }
  predicate IsAnswerEmit(o: Outbound) { o.SendAnswer? }
  predicate IsIceEmit(o: Outbound) { o.SendIce? }
  predicate IsChannelSend(o: Outbound) { o.ChannelSend? }
  predicate IsSignal(o: Outbound) { o.SendOffer? || o.SendAnswer? || o.SendIce? }

  predicate IsWelcome(i: Input) { i.GotWelcome? }
  predicate IsOffer(i: Input) { i.GotOffer? }
  predicate IsLocalCandidate(i: Input) { i.FoundCandidate? }
  predicate IsChatSubmit(i: Input) { i.SendMessage? }
  predicate IsSubmit(i: Input) { i.Submit? }

  predicate Own(l: Line) { l.isYou }

  /** One input, once a peer connection exists: the connection survives and
      only gains calls unless the welcome form replaces it, the channel is
      never dropped, the chat list only grows, and every signalling emit is
      tagged with the room name held before the input. */
  lemma StepKeepsCall(c: Client, input: Input)
    requires c.peer.Some?
    ensures var r := Step(c, input);
      && r.next.peer.Some?
      && (!input.Submit? ==> c.peer.value <= r.next.peer.value)
      && (!input.Submit? ==> r.next.roomName == c.roomName && r.next.userName == c.userName)
      && (c.channel.Some? ==> r.next.channel.Some?)
      && c.log <= r.next.log
      && (forall k | 0 <= k < |r.emits| && IsSignal(r.emits[k]) :: r.emits[k].tag == c.roomName)
  {
  }

  /** One input, once a peer connection exists: each signalling input yields
      exactly one emit of its kind, and a chat submission sends one payload
      exactly when the data channel is open. */
  lemma StepCounts(c: Client, input: Input)
    requires c.peer.Some?
    ensures var r := Step(c, input);
      && r.next.peer.Some?
      && CountIf(r.emits, IsOfferEmit) == (if input.GotWelcome? then 1 else 0)
      && CountIf(r.emits, IsAnswerEmit) == (if input.GotOffer? then 1 else 0)
      && CountIf(r.emits, IsIceEmit) == (if input.FoundCandidate? then 1 else 0)
      && CountIf(r.emits, IsChannelSend) == (if input.SendMessage? && c.channel == Some(Open) then 1 else 0)
  {
  }

  /** One input adds exactly one line of the user's own when it is a chat
      submission that completes, and none otherwise. */
  lemma StepEchoes(c: Client, input: Input)
    requires c.peer.Some?
    ensures var r := Step(c, input);
      && c.log <= r.next.log
      && CountIf(r.next.log[|c.log|..], Own) == (if input.SendMessage? && CanSubmit(c) then 1 else 0)
  {
    var r := Step(c, input);
    match input
    case SendMessage =>
      if CanSubmit(c) {
        assert r.next.log[|c.log|..] == [Line(YouPrefix + c.draft, true)];
      } else {
        assert r.next.log[|c.log|..] == [];
      }
    case GotWelcome(nickname, _) =>
      assert r.next.log[|c.log|..] == [Line(nickname + ArrivedSuffix, false)];
    case GotBye(nickname) =>
      assert r.next.log[|c.log|..] == [Line(nickname + LeftSuffix, false)];
    case GotChat(chat) =>
      if c.channel == Some(Open) {
        assert r.next.log[|c.log|..] == [Line(Render(chat), false)];
      } else {
        assert r.next.log[|c.log|..] == [];
      }
    case _ =>
      assert r.next.log[|c.log|..] == [];
  }

  /** Lines added over two consecutive stretches of a run. */
  lemma AddedLinesSplit(a: seq<Line>, b: seq<Line>, c: seq<Line>)
    requires a <= b && b <= c
    ensures c[|a|..] == b[|a|..] + c[|b|..]
  {
  }

  /** A whole run keeps the peer connection, the channel and the chat list. */
  lemma {:induction false} RunKeepsCall(c: Client, inputs: seq<Input>)
    requires c.peer.Some?
    ensures var r := Run(c, inputs);
      && r.next.peer.Some?
      && (c.channel.Some? ==> r.next.channel.Some?)
      && c.log <= r.next.log
    decreases |inputs|
  {
    if inputs != [] {
      StepKeepsCall(c, inputs[0]);
      RunKeepsCall(Step(c, inputs[0]).next, inputs[1..]);
    }
  }

  /** Each `welcome` received yields exactly one offer, however the inputs
      interleave. */
  lemma {:induction false} EachWelcomeOffersOnce(c: Client, inputs: seq<Input>)
    requires c.peer.Some?
    ensures CountIf(Run(c, inputs).emits, IsOfferEmit) == CountIf(inputs, IsWelcome)
    decreases |inputs|
  {
    if inputs != [] {
      var first := Step(c, inputs[0]);
      StepCounts(c, inputs[0]);
      EachWelcomeOffersOnce(first.next, inputs[1..]);
      CountIfAppend(first.emits, Run(first.next, inputs[1..]).emits, IsOfferEmit);
    }
  }

  /** Each `offer` received is answered exactly once. */
  lemma {:induction false} EachOfferAnsweredOnce(c: Client, inputs: seq<Input>)
    requires c.peer.Some?
    ensures CountIf(Run(c, inputs).emits, IsAnswerEmit) == CountIf(inputs, IsOffer)
    decreases |inputs|
  {
    if inputs != [] {
      var first := Step(c, inputs[0]);
      StepCounts(c, inputs[0]);
      EachOfferAnsweredOnce(first.next, inputs[1..]);
      CountIfAppend(first.emits, Run(first.next, inputs[1..]).emits, IsAnswerEmit);
    }
  }

  /** Each locally found candidate is sent exactly once. */
  lemma {:induction false} EachCandidateSentOnce(c: Client, inputs: seq<Input>)
    requires c.peer.Some?
    ensures CountIf(Run(c, inputs).emits, IsIceEmit) == CountIf(inputs, IsLocalCandidate)
    decreases |inputs|
  {
    if inputs != [] {
      var first := Step(c, inputs[0]);
      StepCounts(c, inputs[0]);
      EachCandidateSentOnce(first.next, inputs[1..]);
      CountIfAppend(first.emits, Run(first.next, inputs[1..]).emits, IsIceEmit);
    }
  }

  /** At most one chat payload goes out per chat submission. */
  lemma AtMostOneSendPerChat(c: Client, inputs: seq<Input>)
    requires c.peer.Some?
    ensures CountIf(Run(c, inputs).emits, IsChannelSend) <= CountIf(inputs, IsChatSubmit)
  {
    SentChatsAreEchoed(c, inputs);
  }

  /** Every payload sent is also shown as the user's own line, and no such
      line appears without a chat submission; lines already shown are never
      removed. */
  lemma {:induction false} SentChatsAreEchoed(c: Client, inputs: seq<Input>)
    requires c.peer.Some?
    ensures c.log <= Run(c, inputs).next.log
    ensures CountIf(Run(c, inputs).emits, IsChannelSend)
            <= CountIf(Run(c, inputs).next.log[|c.log|..], Own)
            <= CountIf(inputs, IsChatSubmit)
    decreases |inputs|
  {
    var r := Run(c, inputs);
    RunKeepsCall(c, inputs);
    if inputs == [] {
      assert r.next.log[|c.log|..] == [];
    } else {
      var first := Step(c, inputs[0]);
      var rest := Run(first.next, inputs[1..]);
      StepEchoes(c, inputs[0]);
      StepCounts(c, inputs[0]);
      StepKeepsCall(c, inputs[0]);
      SentChatsAreEchoed(first.next, inputs[1..]);
      AddedLinesSplit(c.log, first.next.log, rest.next.log);
      CountIfAppend(first.next.log[|c.log|..], rest.next.log[|first.next.log|..], Own);
      CountIfAppend(first.emits, rest.emits, IsChannelSend);
    }
  }

  /** Without a new welcome form nothing tears the call down: `bye` and
      every other input keep the peer connection (only adding calls to it),
      the data channel, and the room and user names; and every signalling
      message sent goes to the room the page joined. */
  lemma {:induction false} CallSurvivesPeerDeparture(c: Client, inputs: seq<Input>)
    requires c.peer.Some?
    requires forall k | 0 <= k < |inputs| :: !IsSubmit(inputs[k])
    ensures var r := Run(c, inputs);
      && r.next.peer.Some? && c.peer.value <= r.next.peer.value
      && (c.channel.Some? ==> r.next.channel.Some?)
      && r.next.roomName == c.roomName && r.next.userName == c.userName
      && forall k | 0 <= k < |r.emits| && IsSignal(r.emits[k]) :: r.emits[k].tag == c.roomName
    decreases |inputs|
  {
    if inputs != [] {
      var first := Step(c, inputs[0]);
      StepKeepsCall(c, inputs[0]);
      CallSurvivesPeerDeparture(first.next, inputs[1..]);
      var rest := Run(first.next, inputs[1..]);
      var emits := first.emits + rest.emits;
      forall k | 0 <= k < |emits| && IsSignal(emits[k])
        ensures emits[k].tag == c.roomName
      {
        if k >= |first.emits| {
          assert emits[k] == rest.emits[k - |first.emits|];
        }
      }
    }
  }

  /** A payload sent on the data channel, received by the peer, appears in
      the peer's chat list as `<sender's name> : <text>`, not marked as the
      peer's own. */
  lemma ChatArrivesAsTyped(sender: Client, receiver: Client)
    requires sender.channel == Some(Open) && sender.userName.Some? && receiver.channel == Some(Open)
    ensures var sent := OnSendMessage(sender).emits;
      && |sent| == 1 && sent[0].ChannelSend?
      && Step(receiver, GotChat(sent[0].chat)).next.log
         == receiver.log + [Line(sender.userName.value + Separator + sender.draft, false)]
  {
  }

  /** A message typed right after `welcome`, while the new channel is still
      connecting, is neither sent nor shown, and stays in the input. */
  lemma ChatBeforeChannelOpensIsKept(c: Client, nickname: string, offer: Payload, text: string)
    requires c.peer.Some?
    ensures var r := Run(c, [GotWelcome(nickname, offer), Type(text), SendMessage]);
      && r.emits == [SendOffer(offer, c.roomName)]
      && r.next.log == c.log + [Line(nickname + ArrivedSuffix, false)]
      && r.next.draft == text
  {
    var w := OnWelcome(c, nickname, offer).next;
    assert Run(w.(draft := text), [SendMessage]) == Reaction(w.(draft := text), []);
    assert [GotWelcome(nickname, offer), Type(text), SendMessage][1..] == [Type(text), SendMessage];
    assert [Type(text), SendMessage][1..] == [SendMessage];
  }
}
