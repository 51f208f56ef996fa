/**
 The browser's realtime voice connection. Opening a connection is a coroutine that can be overtaken
 at every await by a close, a recovery or another start; a generation token tells a resumed coroutine
 whether it is still wanted. Typed texts and tool calls are coroutines too, without such a check. The pure
 functions give the effect of every atomic stretch between two awaits, the theorems hold for every
 interleaving of them, and the class is the stateful code.
 */
module RealtimeLink {
  import opened Prelude

  // Where an opening is suspended.
  datatype Stage = AwaitMic | AwaitOtherMic | AwaitOffer | AwaitLocal | AwaitFetch | AwaitErrorText | AwaitAnswer
    | AwaitRemote | AwaitChannel | AwaitPersist | Returned

  // One openRealtime call; `text` tells whether it was started with a text to send.
  datatype Opening = Opening(generation: nat, text: bool, stage: Stage, mic: Option<nat>, peer: Option<nat>)

  datatype Peer = Peer(open: bool, generation: nat)
  datatype Mic = Mic(live: bool, generation: nat)

  // A data channel has the identity of its peer. What is sent on it, by which opening or turn: a text, a request to
  // answer or to stop answering, the output of a tool.
  datatype Ready = Joining | Open | Shut
  datatype Sent = Item(sender: nat) | ResponseCreate(sender: nat) | Cancel(sender: nat) | Output(sender: nat)
  datatype Channel = Channel(state: Ready, sent: seq<Sent>)

  // The page's other senders, suspended: submitMessage while a typed text is stored, runRealtimeTools while one of the
  // `left` remaining tool calls is made. Generation and channel of the page when they began are bookkeeping.
  datatype Turn =
    | Typed(generation: nat, channel: Option<nat>)
    | Tools(generation: nat, channel: Option<nat>, left: nat)

  // The page's connection.
  datatype Link = Link(
    generation: nat,
    active: bool,                    // conversationActive
    ready: bool,                     // realtimeReady
    rtcPeer: Option<nat>,
    rtcChannel: Option<nat>,
    rtcStream: Option<nat>,
    promise: Option<nat>)            // connectionPromise, by the opening that settles it

  datatype Marks = Marks(
    busy: bool,
    autoStart: bool,                 // the timer that starts a connection by itself is set
    channelTimer: bool)              // realtime-channel-timeout is set

  datatype App = App(
    link: Link,
    marks: Marks,
    openings: map<nat, Opening>,     // every openRealtime call that has not settled
    turns: map<nat, Turn>,           // every suspended sender
    peers: map<nat, Peer>,           // every peer connection ever created
    channels: map<nat, Channel>,     // and its data channel
    mics: map<nat, Mic>,             // every microphone stream ever obtained
    next: nat)                       // next unused object identity

  const INITIAL :=
    App(Link(0, false, false, None, None, None, None), Marks(false, false, false), map[], map[], map[], map[], map[], 0)

  // How an awaited operation ends.
  datatype Event = Resolved | NotOk | PreferredMicFailed | Rejected

  datatype Step =
    | Start(text: bool)
    | Close
    | EndConversation
    | Recover(peer: nat, connected: bool)
    | Activate                       // wake word heard, push-to-talk pressed
    | BeginRecognition               // button mode: a recognition session without a connection
    | SetBusy(value: bool)           // any other event of the page
    | Arm                            // the automatic start is scheduled
    | Disarm                         // or taken back
    | AutoStart                      // and its time comes
    | ChannelOpens(peer: nat)
    | ChannelShuts(peer: nat)        // the far end closes it
    | Resume(id: nat, event: Event)
    | Settle(id: nat)
    | Submit                         // a text is typed while the page is ready
    | Stored(id: nat)                // and has been stored
    | ToolsAsked(calls: nat)         // an answer of the model asks for tools
    | Answered(id: nat)              // and the next one has answered, failed or was not called

  // ------------------------------------------------------------------
  // Atomic stretches
  // ------------------------------------------------------------------

  function ClosePeer(peers: map<nat, Peer>, peer: Option<nat>): map<nat, Peer> {
    if peer.Some? && peer.value in peers then peers[peer.value := peers[peer.value].(open := false)] else peers
  }

  function StopMic(mics: map<nat, Mic>, mic: Option<nat>): map<nat, Mic> {
    if mic.Some? && mic.value in mics then mics[mic.value := mics[mic.value].(live := false)] else mics
  }

  function ShutChannel(channels: map<nat, Channel>, channel: Option<nat>): map<nat, Channel> {
    if channel.Some? && channel.value in channels
    then channels[channel.value := channels[channel.value].(state := Shut)] else channels
  }

  function Busy(a: App, busy: bool): App {
    a.(marks := a.marks.(busy := busy))
  }

  function Armed(a: App, autoStart: bool): App {
    a.(marks := a.marks.(autoStart := autoStart))
  }

  function Timed(a: App, channelTimer: bool): App {
    a.(marks := a.marks.(channelTimer := channelTimer))
  }

  function Readied(a: App): App {
    a.(link := a.link.(ready := true))
  }

  // A new generation has no timers.
  function Closed(a: App): App {
    App(Link(a.link.generation + 1, a.link.active, false, None, None, None, None), Marks(a.marks.busy, false, false),
        a.openings, a.turns, ClosePeer(a.peers, a.link.rtcPeer), ShutChannel(a.channels, a.link.rtcChannel),
        StopMic(a.mics, a.link.rtcStream), a.next)
  }

  function Started(a: App, text: bool): App {
    if a.link.promise.Some? || a.link.ready || a.link.rtcPeer.Some? then a
    else
      var generation := a.link.generation + 1;
      a.(link := a.link.(generation := generation, active := true, promise := Some(a.next)), marks := Marks(true, false, false),
         openings := a.openings[a.next := Opening(generation, text, AwaitMic, None, None)], next := a.next + 1)
  }

  function End(a: App): App {
    Closed(a).(link := Closed(a).link.(active := false))
  }

  function Recovered(a: App, peer: nat, connected: bool): App {
    if a.link.rtcPeer != Some(peer) then a
    else if !a.link.active || !connected then End(a)
    else Busy(End(a), false)
  }

  function At(a: App, id: nat, o: Opening): App {
    a.(openings := a.openings[id := o])
  }

  // The catch clause: a stale opening releases its own microphone, a current one closes everything.
  function Catch(a: App, id: nat, o: Opening): App {
    At(if o.generation != a.link.generation then a.(mics := StopMic(a.mics, o.mic)) else Busy(End(a), false),
       id, o.(stage := Returned))
  }

  // The check after an await, then on to the next one.
  function Continue(a: App, id: nat, o: Opening, stage: Stage): App {
    if o.generation != a.link.generation then Catch(a, id, o) else At(a, id, o.(stage := stage))
  }

  // getUserMedia resolved: the stream exists from here on.
  function MicGranted(a: App, id: nat, o: Opening): App {
    var m := a.next;
    var granted := o.(mic := Some(m));
    var a1 := a.(mics := a.mics[m := Mic(true, o.generation)], next := m + 1);
    if o.generation != a.link.generation then Catch(a1, id, granted)
    else
      At(a1.(peers := a1.peers[m + 1 := Peer(true, o.generation)], channels := a1.channels[m + 1 := Channel(Joining, [])],
             next := m + 2,
             link := a1.link.(rtcPeer := Some(m + 1), rtcChannel := Some(m + 1), rtcStream := Some(m))),
         id, granted.(peer := Some(m + 1), stage := AwaitOffer))
  }

  // sendRealtime, once for each message: on the given channel, if that one is open.
  function Post(channels: map<nat, Channel>, to: Option<nat>, what: seq<Sent>): map<nat, Channel> {
    if to.Some? && to.value in channels && channels[to.value].state == Open
    then channels[to.value := Channel(Open, channels[to.value].sent + what)] else channels
  }

  // What a current opening does when it goes on to wait for its channel.
  function Awaiting(a: App, id: nat, o: Opening): App {
    if o.generation != a.link.generation then Catch(a, id, o) else Timed(At(a, id, o.(stage := AwaitChannel)), true)
  }

  // The last lines of an opening.
  function Wrapped(a: App): App {
    Busy(Armed(a, false), false)
  }

  // Its channel is open.
  function Joined(a: App, id: nat, o: Opening): App {
    if o.generation != a.link.generation then Catch(a, id, o)
    else if o.text then Readied(At(a, id, o.(stage := AwaitPersist)))
    else Wrapped(Readied(At(a, id, o.(stage := Returned))))
  }

  function Resumed(a: App, id: nat, event: Event): App
    requires id in a.openings
  {
    var o := a.openings[id];
    match o.stage
    case AwaitMic =>
      if event.Resolved? then MicGranted(a, id, o)
      else if event.PreferredMicFailed? then At(a, id, o.(stage := AwaitOtherMic))
      else Catch(a, id, o)
    case AwaitOtherMic => if event.Resolved? then MicGranted(a, id, o) else Catch(a, id, o)
    case AwaitOffer => if event.Resolved? then Continue(a, id, o, AwaitLocal) else Catch(a, id, o)
    case AwaitLocal => if event.Resolved? then Continue(a, id, o, AwaitFetch) else Catch(a, id, o)
    case AwaitFetch =>
      if event.Resolved? then Continue(a, id, o, AwaitAnswer)
      else if event.NotOk? then Continue(a, id, o, AwaitErrorText)
      else Catch(a, id, o)
    case AwaitErrorText => Catch(a, id, o)
    case AwaitAnswer => if event.Resolved? then At(a, id, o.(stage := AwaitRemote)) else Catch(a, id, o)
    case AwaitRemote => if event.Resolved? then Awaiting(a, id, o) else Catch(a, id, o)
    case AwaitChannel =>
      if event.Resolved? then Joined(Timed(a, false), id, o) else Catch(a, id, o)
    case AwaitPersist =>
      Wrapped(At(a, id, o.(stage := Returned)))
        .(channels := Post(a.channels, a.link.rtcChannel, [Item(id), ResponseCreate(id)]))
    case Returned => a
  }

  // The promise settles after its opening has returned.
  function Settled(a: App, id: nat): App {
    a.(link := if a.link.promise == Some(id) then a.link.(promise := None) else a.link, openings := a.openings - {id})
  }

  function TypedSpeech(id: nat, busy: bool): seq<Sent> {
    (if busy then [Cancel(id)] else []) + [Item(id), ResponseCreate(id)]
  }

  function ToolSpeech(id: nat, left: nat): seq<Sent> {
    [Output(id)] + if left <= 1 then [ResponseCreate(id)] else []
  }

  // The end of submitMessage: there is no check after the text was stored.
  function TypedSent(a: App, id: nat): App {
    a.(channels := Post(a.channels, a.link.rtcChannel, TypedSpeech(id, a.marks.busy)),
       marks := a.marks.(busy := true), turns := a.turns - {id})
  }

  // runRealtimeTools goes on after a call, without a check.
  function ToolAnswered(a: App, id: nat, t: Turn): App
    requires t.Tools?
  {
    var channels := Post(a.channels, a.link.rtcChannel, ToolSpeech(id, t.left));
    if t.left <= 1 then a.(channels := channels, turns := a.turns - {id})
    else a.(channels := channels, marks := a.marks.(busy := true), turns := a.turns[id := t.(left := t.left - 1)])
  }

  function Begun(a: App, t: Turn): App {
    a.(turns := a.turns[a.next := t], next := a.next + 1)
  }

  predicate ChannelOpen(a: App) {
    a.link.rtcChannel.Some? && a.link.rtcChannel.value in a.channels && a.channels[a.link.rtcChannel.value].state == Open
  }

  predicate Enabled(a: App, s: Step) {
    match s
    case BeginRecognition => !a.link.active
    case AutoStart => a.marks.autoStart
    case ChannelOpens(peer) => peer in a.channels && a.channels[peer].state == Joining && a.link.rtcChannel == Some(peer)
    case ChannelShuts(peer) => peer in a.channels
    case Resume(id, event) =>
      && id in a.openings && !a.openings[id].stage.Returned?
      && (a.openings[id].stage.AwaitChannel? && event.Resolved? ==>
            a.openings[id].peer.Some? && a.openings[id].peer.value in a.channels
            && a.channels[a.openings[id].peer.value].state != Joining)
    case Settle(id) => id in a.openings && a.openings[id].stage.Returned?
    case Submit => a.link.ready
    case Stored(id) => id in a.turns && a.turns[id].Typed?
    case ToolsAsked(calls) => calls > 0 && ChannelOpen(a)
    case Answered(id) => id in a.turns && a.turns[id].Tools?
    case _ => true
  }

  function Next(a: App, s: Step): App
    requires Enabled(a, s)
  {
    match s
    case Start(text) => Started(a, text)
    case Close => Closed(a)
    case EndConversation => End(a)
    case Recover(peer, connected) => Recovered(a, peer, connected)
    case Activate => a.(link := a.link.(active := true))
    case BeginRecognition =>
      a.(link := a.link.(active := true, generation := a.link.generation + 1), marks := Marks(a.marks.busy, false, false))
    case SetBusy(value) => Busy(a, value)
    case Arm => if a.link.ready || a.link.rtcPeer.Some? then a else Armed(a, true)
    case Disarm => Armed(a, false)
    case AutoStart => Started(Armed(a, false), false)
    case ChannelOpens(peer) => a.(channels := a.channels[peer := a.channels[peer].(state := Open)])
    case ChannelShuts(peer) => a.(channels := a.channels[peer := a.channels[peer].(state := Shut)])
    case Resume(id, event) => Resumed(a, id, event)
    case Settle(id) => Settled(a, id)
    case Submit => Begun(a, Typed(a.link.generation, a.link.rtcChannel))
    case Stored(id) => TypedSent(a, id)
    case ToolsAsked(calls) => Busy(Begun(a, Tools(a.link.generation, a.link.rtcChannel, calls)), true)
    case Answered(id) => ToolAnswered(a, id, a.turns[id])
  }

  // ------------------------------------------------------------------
  // The invariant
  // ------------------------------------------------------------------

  ghost predicate Seeking(stage: Stage) {
    stage.AwaitMic? || stage.AwaitOtherMic?
  }

  ghost predicate OpeningInv(a: App, id: nat) {
    id in a.openings ==>
      var o := a.openings[id];
      && id < a.next && o.generation <= a.link.generation
      && (o.mic.Some? ==> o.mic.value in a.mics && a.mics[o.mic.value].generation == o.generation)
      && (o.peer.Some? ==> o.peer.value in a.peers && a.peers[o.peer.value].generation == o.generation)
      && (o.stage.AwaitPersist? ==> o.peer.Some?)
      && (Seeking(o.stage) ==> o.mic.None? && o.peer.None?)
      && (o.generation == a.link.generation && !o.stage.Returned? ==>
            && a.link.active
            && (if Seeking(o.stage) then a.link.rtcPeer.None? && a.link.rtcStream.None? && !a.link.ready
                else a.link.rtcPeer.Some? && a.link.rtcPeer == o.peer && a.link.rtcStream == o.mic)
            && (!o.stage.AwaitPersist? ==> !a.link.ready))
  }

  ghost predicate LinkInv(a: App) {
    && (a.link.rtcPeer.Some? <==> a.link.rtcStream.Some?) && a.link.rtcChannel == a.link.rtcPeer
    && (a.link.rtcPeer.Some? ==>
          && a.link.rtcPeer.value in a.peers && a.peers[a.link.rtcPeer.value] == Peer(true, a.link.generation)
          && a.link.rtcStream.value in a.mics && a.mics[a.link.rtcStream.value] == Mic(true, a.link.generation)
          && a.link.active)
    && (a.link.ready ==> a.link.rtcPeer.Some?)
    && (a.link.promise.Some? ==>
          a.link.promise.value in a.openings && a.openings[a.link.promise.value].generation == a.link.generation && a.link.active)
  }

  ghost predicate ObjectsInv(a: App) {
    && (forall p :: p in a.peers ==> p < a.next && (a.peers[p].open ==> a.link.rtcPeer == Some(p)))
    && (forall m :: m in a.mics ==> m < a.next && (a.mics[m].live ==> a.link.rtcStream == Some(m)))
    && a.channels.Keys == a.peers.Keys
    && (forall p :: p in a.channels && a.channels[p].state == Open ==> a.link.rtcChannel == Some(p))
  }

  ghost predicate PageInv(a: App) {
    && LinkInv(a)
    && ObjectsInv(a)
    && (forall id :: id in a.openings ==> OpeningInv(a, id))
    && (forall i, j :: i in a.openings && j in a.openings && i != j ==>
          a.openings[i].generation != a.openings[j].generation)
  }

  // Apart from marks, timers, turns and what was sent, the page is as it was; only its own channel may have opened.
  ghost predicate SamePage(a: App, a': App) {
    && a'.link == a.link && a'.openings == a.openings && a'.peers == a.peers && a'.mics == a.mics && a'.next >= a.next
    && SameChannels(a.channels, a.link.rtcChannel, a'.channels)
  }

  ghost predicate SameChannels(channels: map<nat, Channel>, ours: Option<nat>, channels': map<nat, Channel>) {
    && channels'.Keys == channels.Keys
    && (forall p :: p in channels' && channels'[p].state == Open ==> channels[p].state == Open || ours == Some(p))
  }

  lemma PostKeepsChannels(channels: map<nat, Channel>, to: Option<nat>, what: seq<Sent>)
    ensures SameChannels(channels, to, Post(channels, to, what))
  {
  }

  lemma SamePageKeepsInv(a: App, a': App)
    requires PageInv(a) && SamePage(a, a')
    ensures PageInv(a')
  {
    forall id | id in a.openings
      ensures OpeningInv(a', id)
    {
      assert OpeningInv(a, id);
    }
  }

  lemma ClosedKeepsInv(a: App)
    requires PageInv(a)
    ensures PageInv(Closed(a))
    ensures Closed(a).openings == a.openings && Closed(a).link.generation == a.link.generation + 1
  {
    forall id | id in a.openings
      ensures OpeningInv(Closed(a), id)
    {
      assert OpeningInv(a, id);
    }
  }

  lemma EndKeepsInv(a: App)
    requires PageInv(a)
    ensures PageInv(End(a))
    ensures End(a).openings == a.openings && End(a).link.generation == a.link.generation + 1
  {
    ClosedKeepsInv(a);
    forall id | id in a.openings
      ensures OpeningInv(End(a), id)
    {
      assert OpeningInv(a, id);
    }
  }

  // Writing back an opening that is not wanted any more disturbs nothing.
  lemma ReturnKeepsInv(a: App, id: nat)
    requires PageInv(a) && id in a.openings
    ensures PageInv(At(a, id, a.openings[id].(stage := Returned)))
  {
  }

  lemma CatchKeepsInv(a: App, id: nat)
    requires PageInv(a) && id in a.openings
    ensures PageInv(Catch(a, id, a.openings[id]))
  {
    var o := a.openings[id];
    if o.generation != a.link.generation {
      StaleMicIsOff(a, id);
      ReturnKeepsInv(a, id);
    } else {
      EndKeepsInv(a);
      SamePageKeepsInv(End(a), Busy(End(a), false));
      ReturnKeepsInv(Busy(End(a), false), id);
    }
  }

  lemma StaleMicIsOff(a: App, id: nat)
    requires PageInv(a) && id in a.openings && a.openings[id].generation != a.link.generation
    ensures a.(mics := StopMic(a.mics, a.openings[id].mic)) == a
  {
    assert OpeningInv(a, id);
    var mic := a.openings[id].mic;
    if mic.Some? {
      assert !a.mics[mic.value].live;
      assert a.mics[mic.value := a.mics[mic.value].(live := false)] == a.mics;
    }
  }

  // A current opening moves on from one await to a later one.
  lemma AdvanceKeepsInv(a: App, id: nat, stage: Stage)
    requires PageInv(a) && id in a.openings && !a.openings[id].stage.Returned?
    requires Seeking(a.openings[id].stage) == Seeking(stage) && !stage.AwaitPersist?
    requires stage.Returned? || !a.openings[id].stage.AwaitPersist?
    ensures PageInv(At(a, id, a.openings[id].(stage := stage)))
  {
  }

  lemma AwaitingKeepsInv(a: App, id: nat)
    requires PageInv(a) && id in a.openings && a.openings[id].stage.AwaitRemote?
    ensures PageInv(Awaiting(a, id, a.openings[id]))
  {
    if a.openings[id].generation != a.link.generation {
      CatchKeepsInv(a, id);
    } else {
      AdvanceKeepsInv(a, id, AwaitChannel);
      var a1 := At(a, id, a.openings[id].(stage := AwaitChannel));
      SamePageKeepsInv(a1, Timed(a1, true));
    }
  }

  lemma StaleGrantKeepsInv(a: App, id: nat)
    requires PageInv(a) && id in a.openings && Seeking(a.openings[id].stage) && a.openings[id].generation != a.link.generation
    ensures PageInv(MicGranted(a, id, a.openings[id]))
  {
    var a' := MicGranted(a, id, a.openings[id]);
    assert a'.mics[a.next] == Mic(false, a.openings[id].generation);
    forall j | j in a'.openings
      ensures OpeningInv(a', j)
    {
      assert OpeningInv(a, j);
    }
  }

  lemma CurrentGrantKeepsLink(a: App, id: nat)
    requires PageInv(a) && id in a.openings && Seeking(a.openings[id].stage) && a.openings[id].generation == a.link.generation
    ensures LinkInv(MicGranted(a, id, a.openings[id])) && ObjectsInv(MicGranted(a, id, a.openings[id]))
  {
    assert OpeningInv(a, id);
  }

  lemma CurrentGrantKeepsInv(a: App, id: nat)
    requires PageInv(a) && id in a.openings && Seeking(a.openings[id].stage) && a.openings[id].generation == a.link.generation
    ensures PageInv(MicGranted(a, id, a.openings[id]))
  {
    var a' := MicGranted(a, id, a.openings[id]);
    CurrentGrantKeepsLink(a, id);
    assert OpeningInv(a, id);
    forall j | j in a'.openings
      ensures OpeningInv(a', j)
    {
      assert OpeningInv(a, j);
    }
  }

  lemma GrantKeepsInv(a: App, id: nat)
    requires PageInv(a) && id in a.openings && Seeking(a.openings[id].stage)
    ensures PageInv(MicGranted(a, id, a.openings[id]))
  {
    if a.openings[id].generation != a.link.generation {
      StaleGrantKeepsInv(a, id);
    } else {
      CurrentGrantKeepsInv(a, id);
    }
  }

  // The current opening's channel is open: the page is ready.
  lemma ConnectedKeepsInv(a: App, id: nat)
    requires PageInv(a) && id in a.openings && a.openings[id].stage.AwaitChannel?
    requires a.openings[id].generation == a.link.generation
    ensures
      var o := a.openings[id];
      PageInv(Readied(At(a, id, o.(stage := if o.text then AwaitPersist else Returned))))
  {
    var o := a.openings[id];
    var a' := Readied(At(a, id, o.(stage := if o.text then AwaitPersist else Returned)));
    assert OpeningInv(a, id);
    forall j | j in a'.openings
      ensures OpeningInv(a', j)
    {
      assert OpeningInv(a, j);
    }
  }

  lemma JoinedKeepsInv(a: App, id: nat)
    requires PageInv(a) && id in a.openings && a.openings[id].stage.AwaitChannel?
    ensures PageInv(Joined(a, id, a.openings[id]))
  {
    if a.openings[id].generation != a.link.generation {
      CatchKeepsInv(a, id);
    } else {
      ConnectedKeepsInv(a, id);
      var o := a.openings[id];
      var a2 := Readied(At(a, id, o.(stage := if o.text then AwaitPersist else Returned)));
      SamePageKeepsInv(a2, Wrapped(a2));
    }
  }

  lemma ChannelKeepsInv(a: App, id: nat)
    requires PageInv(a) && id in a.openings && a.openings[id].stage.AwaitChannel?
    ensures PageInv(Joined(Timed(a, false), id, a.openings[id]))
  {
    SamePageKeepsInv(a, Timed(a, false));
    JoinedKeepsInv(Timed(a, false), id);
  }

  // One of the awaits between the offer and the answer.
  lemma NegotiationKeepsInv(a: App, id: nat, event: Event)
    requires PageInv(a) && id in a.openings
    requires a.openings[id].stage in [AwaitOffer, AwaitLocal, AwaitFetch, AwaitErrorText, AwaitAnswer]
    ensures PageInv(Resumed(a, id, event))
  {
    CatchKeepsInv(a, id);
    match a.openings[id].stage
    case AwaitOffer => AdvanceKeepsInv(a, id, AwaitLocal);
    case AwaitLocal => AdvanceKeepsInv(a, id, AwaitFetch);
    case AwaitFetch =>
      AdvanceKeepsInv(a, id, AwaitAnswer);
      AdvanceKeepsInv(a, id, AwaitErrorText);
    case AwaitAnswer => AdvanceKeepsInv(a, id, AwaitRemote);
    case AwaitErrorText =>
  }

  lemma PersistedKeepsInv(a: App, id: nat, event: Event)
    requires PageInv(a) && id in a.openings && a.openings[id].stage.AwaitPersist?
    ensures PageInv(Resumed(a, id, event))
  {
    AdvanceKeepsInv(a, id, Returned);
    var a1 := At(a, id, a.openings[id].(stage := Returned));
    PostKeepsChannels(a.channels, a.link.rtcChannel, [Item(id), ResponseCreate(id)]);
    SamePageKeepsInv(a1, Resumed(a, id, event));
  }

  lemma ResumeKeepsInv(a: App, id: nat, event: Event)
    requires PageInv(a) && id in a.openings && !a.openings[id].stage.Returned?
    ensures PageInv(Resumed(a, id, event))
  {
    CatchKeepsInv(a, id);
    match a.openings[id].stage
    case AwaitMic =>
      GrantKeepsInv(a, id);
      AdvanceKeepsInv(a, id, AwaitOtherMic);
    case AwaitOtherMic => GrantKeepsInv(a, id);
    case AwaitRemote => AwaitingKeepsInv(a, id);
    case AwaitChannel => ChannelKeepsInv(a, id);
    case AwaitPersist => PersistedKeepsInv(a, id, event);
    case _ => NegotiationKeepsInv(a, id, event);
  }

  lemma StartKeepsInv(a: App, text: bool)
    requires PageInv(a)
    ensures PageInv(Started(a, text))
  {
  }

  lemma RecoverKeepsInv(a: App, peer: nat, connected: bool)
    requires PageInv(a)
    ensures PageInv(Recovered(a, peer, connected))
  {
    EndKeepsInv(a);
    SamePageKeepsInv(End(a), Busy(End(a), false));
  }

  lemma SettleKeepsInv(a: App, id: nat)
    requires PageInv(a) && Enabled(a, Settle(id))
    ensures PageInv(Settled(a, id))
  {
    forall j | j in a.openings && j != id
      ensures OpeningInv(Settled(a, id), j)
    {
      assert OpeningInv(a, j);
    }
  }

  lemma ActivateKeepsInv(a: App, s: Step)
    requires PageInv(a) && Enabled(a, s) && (s.Activate? || s.BeginRecognition?)
    ensures PageInv(Next(a, s))
  {
    forall j | j in a.openings
      ensures OpeningInv(Next(a, s), j)
    {
      assert OpeningInv(a, j);
    }
  }

  // Steps of the page's marks, timers, channels and turns.
  predicate Aside(s: Step) {
    s.SetBusy? || s.Arm? || s.Disarm? || s.ChannelOpens? || s.ChannelShuts? ||
    s.Submit? || s.Stored? || s.ToolsAsked? || s.Answered?
  }

  lemma AsideIsSamePage(a: App, s: Step)
    requires Enabled(a, s) && Aside(s)
    ensures SamePage(a, Next(a, s))
  {
    if s.Stored? || s.Answered? { SpokenIsSamePage(a, s); }
  }

  lemma SpokenIsSamePage(a: App, s: Step)
    requires Enabled(a, s) && (s.Stored? || s.Answered?)
    ensures SamePage(a, Next(a, s))
  {
    if s.Stored? {
      PostKeepsChannels(a.channels, a.link.rtcChannel, TypedSpeech(s.id, a.marks.busy));
    } else {
      PostKeepsChannels(a.channels, a.link.rtcChannel, ToolSpeech(s.id, a.turns[s.id].left));
    }
  }

  lemma NextKeepsPage(a: App, s: Step)
    requires PageInv(a) && Enabled(a, s)
    ensures PageInv(Next(a, s))
  {
    if Aside(s) {
      AsideIsSamePage(a, s);
      SamePageKeepsInv(a, Next(a, s));
    }
    match s
    case Start(text) => StartKeepsInv(a, text);
    case Close => ClosedKeepsInv(a);
    case EndConversation => EndKeepsInv(a);
    case Recover(peer, connected) => RecoverKeepsInv(a, peer, connected);
    case Activate => ActivateKeepsInv(a, s);
    case BeginRecognition => ActivateKeepsInv(a, s);
    case AutoStart =>
      SamePageKeepsInv(a, Armed(a, false));
      StartKeepsInv(Armed(a, false), false);
    case Resume(id, event) => ResumeKeepsInv(a, id, event);
    case Settle(id) => SettleKeepsInv(a, id);
    case _ =>
  }

  // ------------------------------------------------------------------
  // Suspended senders
  // ------------------------------------------------------------------

  // A turn knows the channel of its generation, and that one is the page's while the generation lasts.
  ghost predicate TurnInv(a: App, id: nat) {
    id in a.turns ==>
      var t := a.turns[id];
      && id < a.next && t.generation <= a.link.generation
      && t.channel.Some? && t.channel.value in a.peers && a.peers[t.channel.value].generation == t.generation
      && (t.generation == a.link.generation ==> a.link.rtcChannel == t.channel)
  }

  ghost predicate Inv(a: App) {
    PageInv(a) && forall id :: id in a.turns ==> TurnInv(a, id)
  }

  // The turns are as before, and a generation keeps its channel.
  ghost predicate Follows(a: App, a': App) {
    && a'.turns == a.turns && a'.next >= a.next && a'.link.generation >= a.link.generation
    && (a'.link.generation == a.link.generation && a.link.rtcChannel.Some? ==> a'.link.rtcChannel == a.link.rtcChannel)
    && (forall p :: p in a.peers ==> p in a'.peers && a'.peers[p].generation == a.peers[p].generation)
  }

  lemma FollowsKeepsInv(a: App, a': App)
    requires Inv(a) && PageInv(a') && Follows(a, a')
    ensures Inv(a')
  {
    forall id | id in a'.turns
      ensures TurnInv(a', id)
    {
      assert TurnInv(a, id);
    }
  }

  // The opening is at another stage; a current one may also set or cancel a timer and make the page ready.
  ghost predicate Moved(a: App, id: nat, a': App, stage: Stage)
    requires id in a.openings
  {
    var o := a.openings[id];
    && a'.openings == a.openings[id := o.(stage := stage)] && a'.turns == a.turns && a'.next == a.next
    && a'.peers == a.peers && a'.channels == a.channels && a'.mics == a.mics
    && (a'.link == a.link || a'.link == a.link.(ready := true)) && (stage.Returned? ==> a'.link.ready)
    && (o.generation != a.link.generation ==> a'.link == a.link && a'.marks == a.marks && !stage.AwaitChannel?)
  }

  // What resuming a suspended opening comes to, unless it is after the last await.
  ghost predicate Goes(a: App, id: nat, a': App, stage: Stage)
    requires id in a.openings
  {
    var o := a.openings[id];
    || a' == Catch(a, id, o) || (o.generation != a.link.generation && a' == Catch(Timed(a, false), id, o))
    || (Seeking(o.stage) && a' == MicGranted(a, id, o))
    || Moved(a, id, a', stage)
  }

  lemma ResumptionGoes(a: App, id: nat, event: Event) returns (stage: Stage)
    requires id in a.openings && !a.openings[id].stage.AwaitPersist? && !a.openings[id].stage.Returned?
    ensures Goes(a, id, Resumed(a, id, event), stage)
  {
    if a.openings[id].stage.AwaitChannel? {
      stage := JoiningGoes(a, id, event);
    } else if a.openings[id].stage in [AwaitOffer, AwaitLocal, AwaitFetch, AwaitErrorText, AwaitAnswer] {
      stage := NegotiationGoes(a, id, event);
    } else {
      stage := if a.openings[id].stage.AwaitMic? then AwaitOtherMic else AwaitChannel;
    }
  }

  lemma NegotiationGoes(a: App, id: nat, event: Event) returns (stage: Stage)
    requires id in a.openings && a.openings[id].stage in [AwaitOffer, AwaitLocal, AwaitFetch, AwaitErrorText, AwaitAnswer]
    ensures Goes(a, id, Resumed(a, id, event), stage)
  {
    if a.openings[id].stage.AwaitFetch? {
      stage := FetchGoes(a, id, event);
    } else {
      stage := OfferGoes(a, id, event);
    }
  }

  lemma OfferGoes(a: App, id: nat, event: Event) returns (stage: Stage)
    requires id in a.openings && a.openings[id].stage in [AwaitOffer, AwaitLocal, AwaitErrorText, AwaitAnswer]
    ensures Goes(a, id, Resumed(a, id, event), stage)
  {
    stage := if a.openings[id].stage.AwaitOffer? then AwaitLocal
             else if a.openings[id].stage.AwaitLocal? then AwaitFetch else AwaitRemote;
  }

  lemma FetchGoes(a: App, id: nat, event: Event) returns (stage: Stage)
    requires id in a.openings && a.openings[id].stage.AwaitFetch?
    ensures Goes(a, id, Resumed(a, id, event), stage)
  {
    stage := if event.Resolved? then AwaitAnswer else AwaitErrorText;
  }

  lemma JoiningGoes(a: App, id: nat, event: Event) returns (stage: Stage)
    requires id in a.openings && a.openings[id].stage.AwaitChannel?
    ensures Goes(a, id, Resumed(a, id, event), stage)
  {
    stage := if a.openings[id].text then AwaitPersist else Returned;
  }

  lemma CatchFollows(a: App, id: nat, o: Opening)
    ensures Follows(a, Catch(a, id, o))
  {
  }

  lemma GrantFollows(a: App, id: nat)
    requires PageInv(a) && id in a.openings && Seeking(a.openings[id].stage)
    ensures Follows(a, MicGranted(a, id, a.openings[id]))
  {
    assert OpeningInv(a, id);
  }

  lemma GoesFollows(a: App, id: nat, a': App, stage: Stage)
    requires PageInv(a) && id in a.openings && Goes(a, id, a', stage)
    ensures Follows(a, a')
  {
    CatchFollows(a, id, a.openings[id]);
    CatchFollows(Timed(a, false), id, a.openings[id]);
    if Seeking(a.openings[id].stage) { GrantFollows(a, id); }
    if Moved(a, id, a', stage) { MovedFollows(a, id, a', stage); }
  }

  lemma MovedFollows(a: App, id: nat, a': App, stage: Stage)
    requires id in a.openings && Moved(a, id, a', stage)
    ensures Follows(a, a')
  {
  }

  lemma ResumeFollows(a: App, id: nat, event: Event)
    requires PageInv(a) && id in a.openings && !a.openings[id].stage.Returned?
    ensures Follows(a, Resumed(a, id, event))
  {
    if !a.openings[id].stage.AwaitPersist? {
      var stage := ResumptionGoes(a, id, event);
      GoesFollows(a, id, Resumed(a, id, event), stage);
    }
  }

  lemma RenewalFollows(a: App, s: Step)
    requires PageInv(a) && Enabled(a, s) && (s.Start? || s.AutoStart? || s.Close? || s.EndConversation? || s.Recover?)
    ensures Follows(a, Next(a, s))
  {
  }

  lemma OthersFollow(a: App, s: Step)
    requires PageInv(a) && Enabled(a, s) && !s.Resume? && !s.Submit? && !s.Stored? && !s.ToolsAsked? && !s.Answered?
    ensures Follows(a, Next(a, s))
  {
    if s.Start? || s.AutoStart? || s.Close? || s.EndConversation? || s.Recover? { RenewalFollows(a, s); }
  }

  // A turn begins, goes on or ends.
  lemma TurnsKeepInv(a: App, a': App, id: nat)
    requires Inv(a) && PageInv(a') && a'.link == a.link && a'.peers == a.peers && a'.next >= a.next
    requires a'.turns.Keys <= a.turns.Keys + {id} && forall j :: j in a'.turns && j != id ==> a'.turns[j] == a.turns[j]
    requires TurnInv(a', id)
    ensures Inv(a')
  {
    forall j | j in a'.turns
      ensures TurnInv(a', j)
    {
      assert TurnInv(a, j);
    }
  }

  lemma BegunKeepsInv(a: App, s: Step)
    requires Inv(a) && Enabled(a, s) && (s.Submit? || s.ToolsAsked?)
    ensures Inv(Next(a, s))
  {
    NextKeepsPage(a, s);
    TurnsKeepInv(a, Next(a, s), a.next);
  }

  lemma SpokenKeepsInv(a: App, s: Step)
    requires Inv(a) && Enabled(a, s) && (s.Stored? || s.Answered?)
    ensures Inv(Next(a, s))
  {
    NextKeepsPage(a, s);
    assert TurnInv(a, s.id);
    TurnsKeepInv(a, Next(a, s), s.id);
  }

  lemma NextKeepsInv(a: App, s: Step)
    requires Inv(a) && Enabled(a, s)
    ensures Inv(Next(a, s))
  {
    if s.Submit? || s.ToolsAsked? {
      BegunKeepsInv(a, s);
    } else if s.Stored? || s.Answered? {
      SpokenKeepsInv(a, s);
    } else {
      NextKeepsPage(a, s);
      if s.Resume? { ResumeFollows(a, s.id, s.event); } else { OthersFollow(a, s); }
      FollowsKeepsInv(a, Next(a, s));
    }
  }

  // ------------------------------------------------------------------
  // Every interleaving
  // ------------------------------------------------------------------

  ghost predicate IsRun(apps: seq<App>, steps: seq<Step>) {
    && |apps| == |steps| + 1 && apps[0] == INITIAL
    && forall i :: 0 <= i < |steps| ==> Enabled(apps[i], steps[i]) && apps[i + 1] == Next(apps[i], steps[i])
  }

  lemma {:induction false} RunInv(apps: seq<App>, steps: seq<Step>, i: nat)
    requires IsRun(apps, steps) && i < |apps|
    ensures Inv(apps[i])
  {
    if i > 0 {
      RunInv(apps, steps, i - 1);
      NextKeepsInv(apps[i - 1], steps[i - 1]);
    }
  }

  // At most one connection is open and at most one microphone live, and both are the ones the page holds; so is the
  // one open channel.
  ghost predicate OneLive(a: App) {
    && (forall p, q :: p in a.peers && q in a.peers && a.peers[p].open && a.peers[q].open ==> p == q)
    && (forall p :: p in a.peers && a.peers[p].open <==> a.link.rtcPeer == Some(p))
    && (forall m :: m in a.mics && a.mics[m].live <==> a.link.rtcStream == Some(m))
    && (forall p :: p in a.channels && a.channels[p].state == Open ==> a.link.rtcPeer == Some(p))
  }

  lemma InvMeansOneLive(a: App)
    requires Inv(a)
    ensures OneLive(a)
  {
  }

  // At every point of every interleaving.
  lemma OneLink(apps: seq<App>, steps: seq<Step>, i: nat)
    requires IsRun(apps, steps) && i < |apps|
    ensures OneLive(apps[i])
  {
    RunInv(apps, steps, i);
  }

  // Readiness implies an open connection with a live microphone, both of the current generation.
  lemma ReadyIsCurrent(apps: seq<App>, steps: seq<Step>, i: nat)
    requires IsRun(apps, steps) && i < |apps| && apps[i].link.ready
    ensures
      var a := apps[i];
      && a.link.rtcPeer.Some? && a.link.rtcPeer.value in a.peers && a.peers[a.link.rtcPeer.value] == Peer(true, a.link.generation)
      && a.link.rtcStream.Some? && a.link.rtcStream.value in a.mics
      && a.mics[a.link.rtcStream.value] == Mic(true, a.link.generation)
  {
    RunInv(apps, steps, i);
  }

  // A start is turned away only while a connection is up or an opening of the current generation is still
  // under way or about to settle.
  lemma StartNeverStuck(apps: seq<App>, steps: seq<Step>, i: nat, text: bool)
    requires IsRun(apps, steps) && i < |apps| && Started(apps[i], text) == apps[i]
    ensures
      var a := apps[i];
      a.link.rtcPeer.Some? || exists id :: id in a.openings && a.openings[id].generation == a.link.generation
  {
    RunInv(apps, steps, i);
    assert apps[i].link.promise.Some? || apps[i].link.ready || apps[i].link.rtcPeer.Some?;
  }

  // ------------------------------------------------------------------
  // Overtaken openings
  // ------------------------------------------------------------------

  // Nothing but the resumed opening itself is touched: connection, channels, other senders, the busy mark and the timers
  // are as before, and no microphone stays behind.
  ghost predicate Harmless(a: App, a': App) {
    && a'.link == a.link && a'.marks == a.marks && a'.peers == a.peers && a'.channels == a.channels && a'.turns == a.turns
    && (forall m :: m in a'.mics && m !in a.mics ==> !a'.mics[m].live)
    && (forall m :: m in a.mics ==> m in a'.mics && a'.mics[m] == a.mics[m])
  }

  lemma StaleCatchIsHarmless(a: App, id: nat)
    requires Inv(a) && id in a.openings && a.openings[id].generation != a.link.generation
    ensures Harmless(a, Catch(a, id, a.openings[id]))
  {
    StaleMicIsOff(a, id);
  }

  lemma StaleGrantIsHarmless(a: App, id: nat)
    requires Inv(a) && id in a.openings && a.openings[id].generation != a.link.generation
    ensures Harmless(a, MicGranted(a, id, a.openings[id]))
  {
    assert a.next !in a.mics;
  }

  // The resumption cancels the timer of its successor.
  predicate CancelsTimer(a: App, id: nat, event: Event)
    requires id in a.openings
  {
    a.openings[id].stage.AwaitChannel? && event.Resolved? && a.marks.channelTimer
  }

  lemma GoesHarmless(a: App, id: nat, a': App, stage: Stage)
    requires Inv(a) && id in a.openings && a.openings[id].generation != a.link.generation
    requires Goes(a, id, a', stage) && (a' == Catch(Timed(a, false), id, a.openings[id]) ==> !a.marks.channelTimer)
    ensures Harmless(a, a')
  {
    StaleCatchIsHarmless(a, id);
    StaleGrantIsHarmless(a, id);
    assert !a.marks.channelTimer ==> Timed(a, false) == a;
  }

  lemma OvertakenStep(a: App, id: nat, event: Event)
    requires Inv(a) && id in a.openings && a.openings[id].generation != a.link.generation
    requires !a.openings[id].stage.AwaitPersist? && !a.openings[id].stage.Returned? && !CancelsTimer(a, id, event)
    ensures Harmless(a, Resumed(a, id, event))
  {
    var stage := ResumptionGoes(a, id, event);
    GoesHarmless(a, id, Resumed(a, id, event), stage);
  }

  // What resuming after the last await does, stale or not: there is no check after it, so the opening's text and its
  // request for an answer go to whatever channel the page now holds, if that is open; the busy mark and the automatic
  // start are taken away; nothing else changes.
  lemma PersistedEffect(a: App, id: nat, event: Event)
    requires id in a.openings && a.openings[id].stage.AwaitPersist?
    ensures
      var a' := Resumed(a, id, event);
      && a' == a.(openings := a'.openings, channels := a'.channels, marks := Marks(false, false, a.marks.channelTimer))
      && (!ChannelOpen(a) ==> a'.channels == a.channels)
      && (ChannelOpen(a) ==>
            var p := a.link.rtcChannel.value;
            a'.channels == a.channels[p := Channel(Open, a.channels[p].sent + [Item(id), ResponseCreate(id)])])
  {
  }

  // Exactly when resuming an overtaken opening disturbs what has replaced it: after the last await, when the page
  // holds an open channel, is busy, or has an automatic start scheduled; and when its own channel opened while its
  // successor's timer runs. In every other case it can only give back what it took.
  lemma OvertakenIsHarmlessIff(apps: seq<App>, steps: seq<Step>, i: nat)
    requires IsRun(apps, steps) && i < |steps| && steps[i].Resume?
    requires apps[i].openings[steps[i].id].generation != apps[i].link.generation
    ensures Harmless(apps[i], apps[i + 1]) <==>
              && !(apps[i].openings[steps[i].id].stage.AwaitPersist?
                   && (ChannelOpen(apps[i]) || apps[i].marks.busy || apps[i].marks.autoStart))
              && !CancelsTimer(apps[i], steps[i].id, steps[i].event)
  {
    RunInv(apps, steps, i);
    var a, id := apps[i], steps[i].id;
    assert Enabled(a, steps[i]) && apps[i + 1] == Resumed(a, id, steps[i].event);
    if a.openings[id].stage.AwaitPersist? {
      PersistedEffect(a, id, steps[i].event);
      if ChannelOpen(a) {
        var p := a.link.rtcChannel.value;
        assert |apps[i + 1].channels[p].sent| == |a.channels[p].sent| + 2;
      }
    } else if !CancelsTimer(a, id, steps[i].event) {
      OvertakenStep(a, id, steps[i].event);
    }
  }

  predicate Joins(a: App, s: Step) {
    s.Resume? && s.event.Resolved? && s.id in a.openings && a.openings[s.id].stage.AwaitChannel?
  }

  // An opening goes on right behind the event that opened its channel, or at once when the channel is open already:
  // what a promise's reactions do in a browser.
  ghost predicate Prompt(apps: seq<App>, steps: seq<Step>) {
    && IsRun(apps, steps)
    && forall i :: 0 <= i < |steps| && Joins(apps[i], steps[i]) ==>
         i > 0 && (ChannelOpens(apps[i].openings[steps[i].id].peer.value) == steps[i - 1]
                   || (steps[i - 1].Resume? && steps[i - 1].id == steps[i].id))
  }

  lemma GoesJoined(a: App, id: nat, a': App, stage: Stage)
    requires id in a.openings && Goes(a, id, a', stage) && id in a'.openings && a'.openings[id].stage.AwaitChannel?
    ensures a'.openings[id].generation == a'.link.generation
  {
  }

  lemma JoinedIsCurrent(a: App, id: nat, event: Event)
    requires id in a.openings && !a.openings[id].stage.Returned?
    requires id in Resumed(a, id, event).openings && Resumed(a, id, event).openings[id].stage.AwaitChannel?
    ensures Resumed(a, id, event).openings[id].generation == Resumed(a, id, event).link.generation
  {
    if !a.openings[id].stage.AwaitPersist? {
      var stage := ResumptionGoes(a, id, event);
      GoesJoined(a, id, Resumed(a, id, event), stage);
    }
  }

  lemma OpenedIsCurrent(a: App, id: nat, p: nat)
    requires PageInv(a) && Enabled(a, ChannelOpens(p)) && id in a.openings && a.openings[id].peer == Some(p)
    ensures a.openings[id].generation == a.link.generation
  {
    assert OpeningInv(a, id);
  }

  lemma JoinsBehind(a: App, s: Step, a': App, id: nat)
    requires Inv(a) && Enabled(a, s) && a' == Next(a, s) && id in a'.openings && a'.openings[id].stage.AwaitChannel?
    requires a'.openings[id].peer.Some?
    requires s == ChannelOpens(a'.openings[id].peer.value) || (s.Resume? && s.id == id)
    ensures a'.openings[id].generation == a'.link.generation
  {
    if s.Resume? {
      JoinedIsCurrent(a, id, s.event);
    } else {
      OpenedIsCurrent(a, id, s.peer);
    }
  }

  // So no overtaken opening finds its channel open.
  lemma PromptIsCurrent(apps: seq<App>, steps: seq<Step>, i: nat)
    requires Prompt(apps, steps) && i < |steps| && Joins(apps[i], steps[i])
    ensures apps[i].openings[steps[i].id].generation == apps[i].link.generation
  {
    RunInv(apps, steps, i - 1);
    JoinsBehind(apps[i - 1], steps[i - 1], apps[i], steps[i].id);
  }

  // With promises like that, only the last await is left to disturb a successor.
  lemma PromptIsHarmlessIff(apps: seq<App>, steps: seq<Step>, i: nat)
    requires Prompt(apps, steps) && i < |steps| && steps[i].Resume?
    requires apps[i].openings[steps[i].id].generation != apps[i].link.generation
    ensures Harmless(apps[i], apps[i + 1]) <==>
              !(apps[i].openings[steps[i].id].stage.AwaitPersist?
                && (ChannelOpen(apps[i]) || apps[i].marks.busy || apps[i].marks.autoStart))
  {
    OvertakenIsHarmlessIff(apps, steps, i);
    if Joins(apps[i], steps[i]) {
      PromptIsCurrent(apps, steps, i);
    }
  }

  // ------------------------------------------------------------------
  // Failing awaits
  // ------------------------------------------------------------------

  // Where an opening goes from each await: on, when it is wanted and the await was granted; to the other microphone
  // when the preferred one cannot be had; to the text of a refusal; otherwise it returns.
  ghost function StageAfter(stage: Stage, event: Event, wanted: bool, text: bool): Stage {
    var granted := event.Resolved? && wanted;
    match stage
    case AwaitMic => if granted then AwaitOffer else if event.PreferredMicFailed? then AwaitOtherMic else Returned
    case AwaitOtherMic => if granted then AwaitOffer else Returned
    case AwaitOffer => if granted then AwaitLocal else Returned
    case AwaitLocal => if granted then AwaitFetch else Returned
    case AwaitFetch => if granted then AwaitAnswer else if event.NotOk? && wanted then AwaitErrorText else Returned
    case AwaitErrorText => Returned
    case AwaitAnswer => if event.Resolved? then AwaitRemote else Returned
    case AwaitRemote => if granted then AwaitChannel else Returned
    case AwaitChannel => if granted && text then AwaitPersist else Returned
    case AwaitPersist => Returned
    case Returned => Returned
  }

  // The opening after the step; others are as they were.
  ghost predicate Becomes(a: App, id: nat, a': App, stage: Stage)
    requires id in a.openings
  {
    && a'.openings.Keys == a.openings.Keys
    && a'.openings[id].stage == stage && a'.openings[id].generation == a.openings[id].generation
    && a'.openings[id].text == a.openings[id].text
    && (forall other :: other in a.openings && other != id ==> a'.openings[other] == a.openings[other])
  }

  lemma CatchBecomes(a: App, id: nat)
    requires id in a.openings
    ensures Becomes(a, id, Catch(a, id, a.openings[id]), Returned)
    ensures Catch(a, id, a.openings[id]).link.ready ==> a.link.ready
  {
  }

  lemma GrantBecomes(a: App, id: nat)
    requires id in a.openings
    ensures Becomes(a, id, MicGranted(a, id, a.openings[id]),
              if a.openings[id].generation == a.link.generation then AwaitOffer else Returned)
    ensures MicGranted(a, id, a.openings[id]).link.ready ==> a.link.ready
  {
  }

  lemma ContinueBecomes(a: App, id: nat, stage: Stage)
    requires id in a.openings
    ensures Becomes(a, id, Continue(a, id, a.openings[id], stage),
              if a.openings[id].generation == a.link.generation then stage else Returned)
    ensures Continue(a, id, a.openings[id], stage).link.ready ==> a.link.ready
  {
    CatchBecomes(a, id);
  }

  lemma AwaitingBecomes(a: App, id: nat)
    requires id in a.openings
    ensures Becomes(a, id, Awaiting(a, id, a.openings[id]),
              if a.openings[id].generation == a.link.generation then AwaitChannel else Returned)
    ensures Awaiting(a, id, a.openings[id]).link.ready ==> a.link.ready
  {
    CatchBecomes(a, id);
  }

  lemma JoinedBecomes(a: App, id: nat)
    requires id in a.openings
    ensures
      var o := a.openings[id];
      Becomes(a, id, Joined(Timed(a, false), id, o),
        if o.generation == a.link.generation && o.text then AwaitPersist else Returned)
      && (o.generation == a.link.generation ==> Joined(Timed(a, false), id, o).link.ready)
      && (o.generation != a.link.generation && Joined(Timed(a, false), id, o).link.ready ==> a.link.ready)
  {
    CatchBecomes(Timed(a, false), id);
  }

  // What a resumption does to its opening, and when it makes the page ready.
  ghost predicate Steps(a: App, id: nat, event: Event, a': App)
    requires id in a.openings
  {
    var o := a.openings[id];
    var wanted := o.generation == a.link.generation;
    && Becomes(a, id, a', StageAfter(o.stage, event, wanted, o.text))
    && (!a.link.ready ==> (a'.link.ready <==> o.stage.AwaitChannel? && event.Resolved? && wanted))
  }

  lemma MovesBecomes(a: App, id: nat, stage: Stage)
    requires id in a.openings
    ensures Becomes(a, id, At(a, id, a.openings[id].(stage := stage)), stage)
  {
  }

  lemma MicSteps(a: App, id: nat, event: Event)
    requires id in a.openings && a.openings[id].stage in [AwaitMic]
    ensures Steps(a, id, event, Resumed(a, id, event))
  {
    CatchBecomes(a, id);
    GrantBecomes(a, id);
    MovesBecomes(a, id, AwaitOtherMic);
  }

  lemma OtherMicSteps(a: App, id: nat, event: Event)
    requires id in a.openings && a.openings[id].stage in [AwaitOtherMic]
    ensures Steps(a, id, event, Resumed(a, id, event))
  {
    CatchBecomes(a, id);
    GrantBecomes(a, id);
  }

  lemma OfferSteps(a: App, id: nat, event: Event)
    requires id in a.openings && a.openings[id].stage in [AwaitOffer, AwaitLocal]
    ensures Steps(a, id, event, Resumed(a, id, event))
  {
    CatchBecomes(a, id);
    ContinueBecomes(a, id, AwaitLocal);
    ContinueBecomes(a, id, AwaitFetch);
  }

  lemma FetchSteps(a: App, id: nat, event: Event)
    requires id in a.openings && a.openings[id].stage in [AwaitFetch]
    ensures Steps(a, id, event, Resumed(a, id, event))
  {
    CatchBecomes(a, id);
    ContinueBecomes(a, id, AwaitAnswer);
    ContinueBecomes(a, id, AwaitErrorText);
  }

  lemma AnswerSteps(a: App, id: nat, event: Event)
    requires id in a.openings && a.openings[id].stage in [AwaitErrorText, AwaitAnswer]
    ensures Steps(a, id, event, Resumed(a, id, event))
  {
    CatchBecomes(a, id);
    MovesBecomes(a, id, AwaitRemote);
  }

  lemma RemoteSteps(a: App, id: nat, event: Event)
    requires id in a.openings && a.openings[id].stage in [AwaitRemote]
    ensures Steps(a, id, event, Resumed(a, id, event))
  {
    CatchBecomes(a, id);
    AwaitingBecomes(a, id);
  }

  lemma ChannelSteps(a: App, id: nat, event: Event)
    requires id in a.openings && a.openings[id].stage in [AwaitChannel]
    ensures Steps(a, id, event, Resumed(a, id, event))
  {
    CatchBecomes(a, id);
    JoinedBecomes(a, id);
  }

  lemma PersistSteps(a: App, id: nat, event: Event)
    requires id in a.openings && a.openings[id].stage in [AwaitPersist]
    ensures Steps(a, id, event, Resumed(a, id, event))
  {
    MovesBecomes(a, id, Returned);
  }

  lemma ResumedSteps(a: App, id: nat, event: Event)
    requires id in a.openings && !a.openings[id].stage.Returned?
    ensures Steps(a, id, event, Resumed(a, id, event))
  {
    match a.openings[id].stage
    case AwaitMic => MicSteps(a, id, event);
    case AwaitOtherMic => OtherMicSteps(a, id, event);
    case AwaitFetch => FetchSteps(a, id, event);
    case AwaitErrorText => AnswerSteps(a, id, event);
    case AwaitAnswer => AnswerSteps(a, id, event);
    case AwaitRemote => RemoteSteps(a, id, event);
    case AwaitChannel => ChannelSteps(a, id, event);
    case AwaitPersist => PersistSteps(a, id, event);
    case _ => OfferSteps(a, id, event);
  }

  // Without the preferred microphone, another one is asked for and nothing else happens.
  lemma OtherMicIsAsked(a: App, id: nat)
    requires id in a.openings && a.openings[id].stage.AwaitMic?
    ensures Resumed(a, id, PreferredMicFailed) == a.(openings := a.openings[id := a.openings[id].(stage := AwaitOtherMic)])
  {
  }

  // An await that does not end the way it should, before the page is ready.
  predicate Fails(a: App, s: Step)
    requires Enabled(a, s)
  {
    && s.Resume? && !a.openings[s.id].stage.AwaitPersist?
    && (s.event.NotOk? || s.event.Rejected? || a.openings[s.id].stage.AwaitErrorText?)
  }

  // The page gets ready exactly when the current opening's channel is open.
  lemma ReadyIff(a: App, s: Step)
    requires Inv(a) && Enabled(a, s) && !a.link.ready
    ensures Next(a, s).link.ready <==>
            && s.Resume? && s.event.Resolved? && a.openings[s.id].stage.AwaitChannel?
            && a.openings[s.id].generation == a.link.generation
  {
    if s.Resume? {
      ResumedSteps(a, s.id, s.event);
    }
  }

  // The opening of generation `g` cannot make the page ready any more.
  ghost predicate Doomed(a: App, id: nat, g: nat) {
    || a.link.generation > g
    || (a.link.generation == g && !a.link.ready
        && id in a.openings && a.openings[id].generation == g && a.openings[id].stage.AwaitErrorText?)
  }

  lemma CatchOvertakes(a: App, id: nat, o: Opening)
    requires o.generation <= a.link.generation
    ensures Catch(a, id, o).link.generation > o.generation
  {
  }

  lemma FailureDooms(a: App, s: Step)
    requires Inv(a) && Enabled(a, s) && Fails(a, s)
    ensures Doomed(Next(a, s), s.id, a.openings[s.id].generation)
  {
    var o := a.openings[s.id];
    assert OpeningInv(a, s.id);
    CatchOvertakes(a, s.id, o);
    ResumedSteps(a, s.id, s.event);
  }

  lemma DoomedWaits(a: App, s: Step, id: nat, g: nat)
    requires Inv(a) && Enabled(a, s) && Doomed(a, id, g) && a.link.generation == g && s.Resume? && s.id != id
    ensures Doomed(Next(a, s), id, g)
  {
    assert a.openings[s.id].generation != a.openings[id].generation;
    ResumedSteps(a, s.id, s.event);
    assert OpeningInv(a, s.id);
    ResumeFollows(a, s.id, s.event);
  }

  lemma DoomedStays(a: App, s: Step, id: nat, g: nat)
    requires Inv(a) && Enabled(a, s) && Doomed(a, id, g)
    ensures Doomed(Next(a, s), id, g)
  {
    if s.Resume? {
      if a.link.generation > g {
        ResumeFollows(a, s.id, s.event);
      } else if s.id == id {
        FailureDooms(a, s);
      } else {
        DoomedWaits(a, s, id, g);
      }
    } else {
      DoomedAside(a, s, id, g);
    }
  }

  lemma DoomedAside(a: App, s: Step, id: nat, g: nat)
    requires Inv(a) && Enabled(a, s) && Doomed(a, id, g) && !s.Resume?
    ensures Doomed(Next(a, s), id, g)
  {
    if Aside(s) { AsideIsSamePage(a, s); }
  }

  // In every run: after an await of an opening has failed, the page is never ready in that opening's generation.
  lemma {:induction false} FailureIsFinal(apps: seq<App>, steps: seq<Step>, i: nat, j: nat)
    requires IsRun(apps, steps) && i < j < |apps| && Fails(apps[i], steps[i])
    ensures !(apps[j].link.ready && apps[j].link.generation == apps[i].openings[steps[i].id].generation)
    ensures Doomed(apps[j], steps[i].id, apps[i].openings[steps[i].id].generation)
    decreases j
  {
    RunInv(apps, steps, j - 1);
    if i == j - 1 {
      FailureDooms(apps[i], steps[i]);
    } else {
      FailureIsFinal(apps, steps, i, j - 1);
      DoomedStays(apps[j - 1], steps[j - 1], steps[i].id, apps[i].openings[steps[i].id].generation);
    }
  }

  // And a current opening that returns without having made the page ready leaves nothing open or live.
  lemma FailureGivesUp(apps: seq<App>, steps: seq<Step>, i: nat)
    requires IsRun(apps, steps) && i < |steps| && steps[i].Resume?
    requires apps[i].openings[steps[i].id].generation == apps[i].link.generation
    requires !apps[i].openings[steps[i].id].stage.AwaitPersist?
    requires apps[i + 1].openings[steps[i].id].stage.Returned? && !apps[i + 1].link.ready
    ensures AllGivenUp(apps[i + 1]) && !apps[i + 1].link.active && !apps[i + 1].marks.busy
    ensures apps[i + 1].link.rtcPeer.None? && apps[i + 1].link.promise.None?
    ensures apps[i + 1].link.generation == apps[i].link.generation + 1
  {
    var a, s := apps[i], steps[i];
    RunInv(apps, steps, i);
    var stage := ResumptionGoes(a, s.id, s.event);
    ReturnIsCatch(a, s.id, apps[i + 1], stage);
    GivenUpAfterCatch(a, s.id);
  }

  lemma ReturnIsCatch(a: App, id: nat, a': App, stage: Stage)
    requires id in a.openings && a.openings[id].generation == a.link.generation && Goes(a, id, a', stage)
    requires id in a'.openings && a'.openings[id].stage.Returned? && !a'.link.ready
    ensures a' == Catch(a, id, a.openings[id])
  {
  }

  lemma GivenUpAfterCatch(a: App, id: nat)
    requires Inv(a) && id in a.openings && a.openings[id].generation == a.link.generation
    ensures
      var a' := Catch(a, id, a.openings[id]);
      && AllGivenUp(a') && !a'.link.active && !a'.marks.busy && a'.link.rtcPeer.None? && a'.link.promise.None?
      && a'.link.generation == a.link.generation + 1
  {
    ClosedFacts(a);
  }

  // ------------------------------------------------------------------
  // What is sent, and where
  // ------------------------------------------------------------------

  // The step resumes a sender: an opening after its last await, a typed text, the tools.
  predicate Speaks(a: App, s: Step)
    requires Enabled(a, s)
  {
    (s.Resume? && a.openings[s.id].stage.AwaitPersist?) || s.Stored? || s.Answered?
  }

  function Speech(a: App, s: Step): seq<Sent>
    requires Enabled(a, s) && Speaks(a, s)
  {
    match s
    case Resume(id, _) => [Item(id), ResponseCreate(id)]
    case Stored(id) => TypedSpeech(id, a.marks.busy)
    case Answered(id) => ToolSpeech(id, a.turns[id].left)
  }

  function SpeakerGeneration(a: App, s: Step): nat
    requires Enabled(a, s) && Speaks(a, s)
  {
    if s.Resume? then a.openings[s.id].generation else a.turns[s.id].generation
  }

  // The channel that was the page's when the speaker began, or that it made.
  function SpeakerChannel(a: App, s: Step): Option<nat>
    requires Enabled(a, s) && Speaks(a, s)
  {
    if s.Resume? then a.openings[s.id].peer else a.turns[s.id].channel
  }

  // The page's channel gets what is said, if it is open.
  lemma SpeechIsSaid(a: App, s: Step)
    requires Enabled(a, s) && Speaks(a, s)
    ensures Next(a, s).channels == Post(a.channels, a.link.rtcChannel, Speech(a, s)) && Speech(a, s) != []
  {
  }

  // In every run, a channel is sent something exactly when a sender is resumed while the page holds that channel open,
  // and then all that the sender has to say.
  lemma SendsIff(apps: seq<App>, steps: seq<Step>, i: nat, p: nat)
    requires IsRun(apps, steps) && i < |steps| && p in apps[i].channels
    ensures p in apps[i + 1].channels
    ensures
      var a, s := apps[i], steps[i];
      if Speaks(a, s) && a.link.rtcChannel == Some(p) && a.channels[p].state == Open
      then apps[i + 1].channels[p].sent == a.channels[p].sent + Speech(a, s) && Speech(a, s) != []
      else apps[i + 1].channels[p].sent == a.channels[p].sent
  {
    RunInv(apps, steps, i);
    var a, s := apps[i], steps[i];
    assert Enabled(a, s) && apps[i + 1] == Next(a, s);
    if Speaks(a, s) {
      SpeechIsSaid(a, s);
    } else {
      SilentStep(a, s, p);
    }
  }

  lemma SpeakerKnowsChannel(a: App, s: Step)
    requires Inv(a) && Enabled(a, s) && Speaks(a, s)
    ensures SpeakerChannel(a, s).Some? && SpeakerChannel(a, s).value in a.channels
    ensures ChannelOpen(a) ==> (a.link.rtcChannel == SpeakerChannel(a, s) <==> SpeakerGeneration(a, s) == a.link.generation)
  {
    if s.Resume? { assert OpeningInv(a, s.id); } else { assert TurnInv(a, s.id); }
  }

  // Whose channel is it? In every run, what a sender says reaches the channel it began with if and only if its
  // generation is current and the channel open; it goes out on another channel if and only if it has been overtaken
  // and that channel is open; otherwise it is lost.
  lemma StraysIff(apps: seq<App>, steps: seq<Step>, i: nat)
    requires IsRun(apps, steps) && i < |steps| && Speaks(apps[i], steps[i])
    ensures
      var a, a', s := apps[i], apps[i + 1], steps[i];
      && SpeakerChannel(a, s).Some? && SpeakerChannel(a, s).value in a.channels && a'.channels.Keys == a.channels.Keys
      && (a'.channels[SpeakerChannel(a, s).value] != a.channels[SpeakerChannel(a, s).value] <==>
            ChannelOpen(a) && SpeakerGeneration(a, s) == a.link.generation)
      && ((exists p :: p in a.channels && Some(p) != SpeakerChannel(a, s) && a'.channels[p] != a.channels[p]) <==>
            ChannelOpen(a) && SpeakerGeneration(a, s) != a.link.generation)
  {
    RunInv(apps, steps, i);
    var a, s := apps[i], steps[i];
    assert Enabled(a, s) && apps[i + 1] == Next(a, s);
    SpeechIsSaid(a, s);
    SpeakerKnowsChannel(a, s);
    if ChannelOpen(a) {
      var p := a.link.rtcChannel.value;
      assert |apps[i + 1].channels[p].sent| > |a.channels[p].sent|;
    }
  }

  ghost predicate Silent(a: App, a': App, p: nat)
    requires p in a.channels
  {
    p in a'.channels && a'.channels[p].sent == a.channels[p].sent
  }

  lemma SilentCatch(a: App, id: nat, o: Opening, p: nat)
    requires p in a.channels
    ensures Silent(a, Catch(a, id, o), p)
  {
  }

  lemma SilentGrant(a: App, id: nat, o: Opening, p: nat)
    requires p in a.channels && p < a.next
    ensures Silent(a, MicGranted(a, id, o), p)
  {
    SilentCatch(a.(mics := a.mics[a.next := Mic(true, o.generation)], next := a.next + 1), id, o.(mic := Some(a.next)), p);
  }

  lemma SilentResume(a: App, id: nat, event: Event, p: nat)
    requires Inv(a) && id in a.openings && p in a.channels && !a.openings[id].stage.AwaitPersist?
    ensures Silent(a, Resumed(a, id, event), p)
  {
    if !a.openings[id].stage.Returned? {
      var stage := ResumptionGoes(a, id, event);
      GoesSilent(a, id, Resumed(a, id, event), stage, p);
    }
  }

  lemma GoesSilent(a: App, id: nat, a': App, stage: Stage, p: nat)
    requires PageInv(a) && id in a.openings && p in a.channels && Goes(a, id, a', stage)
    ensures Silent(a, a', p)
  {
    SilentCatch(a, id, a.openings[id], p);
    SilentCatch(Timed(a, false), id, a.openings[id], p);
    SilentGrant(a, id, a.openings[id], p);
  }

  lemma SilentStep(a: App, s: Step, p: nat)
    requires Inv(a) && Enabled(a, s) && p in a.channels && !Speaks(a, s)
    ensures Silent(a, Next(a, s), p)
  {
    if s.Resume? {
      SilentResume(a, s.id, s.event, p);
    }
  }

  // ------------------------------------------------------------------
  // Openings that connect
  // ------------------------------------------------------------------

  // A sequence of steps from one state to another.
  ghost predicate Leads(a: App, steps: seq<Step>, b: App)
    decreases |steps|
  {
    if steps == [] then a == b else Enabled(a, steps[0]) && Leads(Next(a, steps[0]), steps[1..], b)
  }

  lemma {:induction false} LeadsJoin(a: App, s: seq<Step>, b: App, t: seq<Step>, c: App)
    requires Leads(a, s, b) && Leads(b, t, c)
    ensures Leads(a, s + t, c)
    decreases |s|
  {
    if s == [] {
      assert s + t == t;
    } else {
      assert (s + t)[0] == s[0] && (s + t)[1..] == s[1..] + t;
      LeadsJoin(Next(a, s[0]), s[1..], b, t, c);
    }
  }

  lemma LeadsOn(a: App, s: seq<Step>, b: App, t: seq<Step>, c: App, last: Step)
    requires Leads(a, s, b) && Leads(b, t, c) && Enabled(c, last)
    ensures Leads(a, s + t + [last], Next(c, last))
  {
    LeadsJoin(a, s, b, t, c);
    LeadsOne(c, last);
    LeadsJoin(a, s + t, c, [last], Next(c, last));
  }

  lemma LeadsOne(a: App, s: Step)
    requires Enabled(a, s)
    ensures Leads(a, [s], Next(a, s))
  {
    assert [s][1..] == [];
  }

  predicate Idle(a: App) {
    a.link.promise.None? && !a.link.ready && a.link.rtcPeer.None?
  }

  // What an undisturbed opening leaves: a page connected on a new peer, channel and microphone of a new generation.
  ghost predicate Connected(a: App, b: App, text: bool) {
    var id, m, p := a.next, a.next + 1, a.next + 2;
    && b.link.ready && b.link.active && b.link.generation == a.link.generation + 1 && b.next == a.next + 3
    && b.link.rtcPeer == b.link.rtcChannel == Some(p) && b.link.rtcStream == Some(m)
    && b.peers == a.peers[p := Peer(true, b.link.generation)] && b.mics == a.mics[m := Mic(true, b.link.generation)]
    && b.channels == a.channels[p := Channel(Open, [])]
    && b.openings == a.openings[id := Opening(b.link.generation, text, if text then AwaitPersist else Returned, Some(m), Some(p))]
    && b.link.promise == Some(id) && b.turns == a.turns && (!text ==> !b.marks.busy)
  }

  function Grant(a: App): Step {
    Resume(a.next, Resolved)
  }

  // The steps of an opening that nothing overtakes and nothing refuses.
  function Opens(a: App, text: bool): seq<Step> {
    [Start(text), Grant(a), Grant(a), Grant(a), Grant(a), Grant(a), Grant(a), ChannelOpens(a.next + 2), Grant(a)]
  }

  // After the microphone was granted.
  ghost predicate HalfOpen(a: App, text: bool, b: App) {
    var id, m, p := a.next, a.next + 1, a.next + 2;
    && b.link == Link(a.link.generation + 1, true, false, Some(p), Some(p), Some(m), Some(id))
    && b.marks == Marks(true, false, false) && b.next == a.next + 3 && b.turns == a.turns
    && b.peers == a.peers[p := Peer(true, b.link.generation)] && b.mics == a.mics[m := Mic(true, b.link.generation)]
    && b.channels == a.channels[p := Channel(Joining, [])]
    && b.openings == a.openings[id := Opening(b.link.generation, text, AwaitOffer, Some(m), Some(p))]
  }

  // And after the channel opened.
  ghost predicate Opened(a: App, id: nat, o: Opening, p: nat, b: App) {
    && b.openings == a.openings[id := o.(stage := if o.text then AwaitPersist else Returned)]
    && b.link == a.link.(ready := true) && b.channels == a.channels[p := Channel(Open, [])] && b.turns == a.turns
    && b.peers == a.peers && b.mics == a.mics && b.next == a.next && (!o.text ==> !b.marks.busy)
  }

  lemma Starts(a: App, text: bool) returns (b: App)
    requires Idle(a)
    ensures Leads(a, [Start(text), Grant(a)], b)
    ensures HalfOpen(a, text, b)
  {
    var a1 := Started(a, text);
    LeadsOne(a, Start(text));
    b := Resumed(a1, a.next, Resolved);
    LeadsOne(a1, Grant(a));
    LeadsJoin(a, [Start(text)], a1, [Grant(a)], b);
    assert [Start(text)] + [Grant(a)] == [Start(text), Grant(a)];
    var o := a1.openings[a.next];
    Rewritten(a.openings, a.next, o, o, b.openings[a.next]);
  }

  // One await of a current opening, on to the stage `next`.
  lemma Passes(a: App, id: nat, o: Opening, stage: Stage, next: Stage)
    requires id in a.openings && a.openings[id] == o.(stage := stage) && o.generation == a.link.generation
    requires (stage, next) in [(AwaitOffer, AwaitLocal), (AwaitLocal, AwaitFetch),
                               (AwaitFetch, AwaitAnswer), (AwaitAnswer, AwaitRemote)]
    ensures Leads(a, [Resume(id, Resolved)], At(a, id, o.(stage := next)))
  {
    LeadsOne(a, Resume(id, Resolved));
  }

  lemma PassesTwo(a: App, id: nat, o: Opening, stages: (Stage, Stage, Stage))
    requires id in a.openings && a.openings[id] == o.(stage := stages.0) && o.generation == a.link.generation
    requires stages in [(AwaitOffer, AwaitLocal, AwaitFetch), (AwaitFetch, AwaitAnswer, AwaitRemote)]
    ensures Leads(a, [Resume(id, Resolved), Resume(id, Resolved)], At(a, id, o.(stage := stages.2)))
  {
    var g := Resume(id, Resolved);
    var a1 := At(a, id, o.(stage := stages.1));
    Passes(a, id, o, stages.0, stages.1);
    Passes(a1, id, o, stages.1, stages.2);
    Rewritten(a.openings, id, o, o.(stage := stages.1), o.(stage := stages.2));
    assert At(a1, id, o.(stage := stages.2)) == At(a, id, o.(stage := stages.2));
    LeadsJoin(a, [g], a1, [g], At(a, id, o.(stage := stages.2)));
    assert [g] + [g] == [g, g];
  }

  lemma ThenConnects(a: App, id: nat, o: Opening, p: nat) returns (b: App)
    requires id in a.openings && a.openings[id] == o && o.stage == AwaitRemote && o.generation == a.link.generation
    requires o.peer == Some(p) && a.link.rtcChannel == Some(p) && p in a.channels && a.channels[p] == Channel(Joining, [])
    ensures Leads(a, [Resume(id, Resolved), ChannelOpens(p), Resume(id, Resolved)], b)
    ensures Opened(a, id, o, p, b)
  {
    var g := Resume(id, Resolved);
    var a1 := Next(a, g);
    LeadsOne(a, g);
    var a2 := Next(a1, ChannelOpens(p));
    LeadsOne(a1, ChannelOpens(p));
    b := Resumed(a2, id, Resolved);
    LeadsOne(a2, g);
    Rewritten(a.openings, id, o, o.(stage := AwaitChannel), o.(stage := if o.text then AwaitPersist else Returned));
    LeadsJoin(a1, [ChannelOpens(p)], a2, [g], b);
    LeadsJoin(a, [g], a1, [ChannelOpens(p)] + [g], b);
    assert [g] + ([ChannelOpens(p)] + [g]) == [g, ChannelOpens(p), g];
  }

  lemma PassesFour(a: App, id: nat, o: Opening) returns (b: App)
    requires id in a.openings && a.openings[id] == o && o.stage == AwaitOffer && o.generation == a.link.generation
    ensures
      var g := Resume(id, Resolved);
      Leads(a, [g, g], b) && Leads(b, [g, g], At(a, id, o.(stage := AwaitRemote)))
  {
    PassesTwo(a, id, o, (AwaitOffer, AwaitLocal, AwaitFetch));
    b := At(a, id, o.(stage := AwaitFetch));
    PassesTwo(b, id, o, (AwaitFetch, AwaitAnswer, AwaitRemote));
    Rewritten(a.openings, id, o, o.(stage := AwaitFetch), o.(stage := AwaitRemote));
    assert At(b, id, o.(stage := AwaitRemote)) == At(a, id, o.(stage := AwaitRemote));
  }

  lemma Stretches(a: App, text: bool) returns (c: App, d: App, e: App, b: App)
    requires Idle(a)
    ensures Leads(a, [Start(text), Grant(a)], c) && Leads(c, [Grant(a), Grant(a)], d) && Leads(d, [Grant(a), Grant(a)], e)
    ensures Leads(e, [Grant(a), ChannelOpens(a.next + 2), Grant(a)], b)
    ensures Connected(a, b, text)
  {
    c := Starts(a, text);
    var id, o := a.next, c.openings[a.next];
    d := PassesFour(c, id, o);
    e := At(c, id, o.(stage := AwaitRemote));
    b := ThenConnects(e, id, o.(stage := AwaitRemote), a.next + 2);
    EndsConnected(a, text, c, e, b);
  }

  lemma EndsConnected(a: App, text: bool, c: App, e: App, b: App)
    requires HalfOpen(a, text, c) && e == At(c, a.next, c.openings[a.next].(stage := AwaitRemote))
    requires Opened(e, a.next, e.openings[a.next], a.next + 2, b)
    ensures Connected(a, b, text)
  {
    var id := a.next;
    Rewritten(a.openings, id, c.openings[id], e.openings[id], b.openings[id]);
    Reopened(a.channels, id + 2);
  }

  lemma Rewritten(openings: map<nat, Opening>, id: nat, o: Opening, p: Opening, q: Opening)
    ensures openings[id := o][id := p][id := q] == openings[id := q]
  {
  }

  lemma Reopened(channels: map<nat, Channel>, p: nat)
    ensures channels[p := Channel(Joining, [])][p := Channel(Open, [])] == channels[p := Channel(Open, [])]
  {
  }

  lemma OpensIsJoined(a: App, text: bool)
    ensures
      var g := Grant(a);
      Opens(a, text) == ([Start(text), g] + [g, g]) + ([g, g] + [g, ChannelOpens(a.next + 2), g])
  {
  }

  // From any idle page such an opening connects.
  lemma UndisturbedOpeningConnects(a: App, text: bool) returns (b: App)
    requires Inv(a) && Idle(a)
    ensures Leads(a, Opens(a, text), b) && Inv(b) && Connected(a, b, text)
  {
    var g, c, d, e := Grant(a), a, a, a;
    c, d, e, b := Stretches(a, text);
    LeadsJoin(a, [Start(text), g], c, [g, g], d);
    LeadsJoin(d, [g, g], e, [g, ChannelOpens(a.next + 2), g], b);
    LeadsJoin(a, [Start(text), g] + [g, g], d, [g, g] + [g, ChannelOpens(a.next + 2), g], b);
    OpensIsJoined(a, text);
    LeadsKeepsInv(a, Opens(a, text), b);
  }

  lemma {:induction false} LeadsKeepsInv(a: App, steps: seq<Step>, b: App)
    requires Inv(a) && Leads(a, steps, b)
    ensures Inv(b)
    decreases |steps|
  {
    if steps != [] {
      NextKeepsInv(a, steps[0]);
      LeadsKeepsInv(Next(a, steps[0]), steps[1..], b);
    }
  }

  // The page is closed and opened again.
  lemma Reopens(a: App) returns (steps: seq<Step>, b: App)
    requires Inv(a)
    ensures Leads(a, steps, b) && Inv(b) && Connected(Closed(a), b, false)
  {
    LeadsOne(a, Close);
    NextKeepsInv(a, Close);
    b := UndisturbedOpeningConnects(Closed(a), false);
    steps := [Close] + Opens(Closed(a), false);
    LeadsJoin(a, [Close], Closed(a), Opens(Closed(a), false), b);
  }

  lemma TextIsSent(a: App, id: nat, p: nat)
    requires id in a.openings && a.openings[id].stage.AwaitPersist? && a.link.rtcChannel == Some(p)
    requires p in a.channels && a.channels[p] == Channel(Open, [])
    ensures
      var b := Next(a, Resume(id, Resolved));
      && b.link.rtcChannel == Some(p) && id in b.openings && b.openings[id].peer == a.openings[id].peer
      && p in b.channels && b.channels[p].sent == [Item(id), ResponseCreate(id)]
  {
  }

  // The input that shows the disturbance: only after the second opening has connected is the first one's text stored.
  // It goes out on the second one's channel.
  lemma TextGoesToSuccessor(a: App) returns (steps: seq<Step>, b: App)
    requires Inv(a) && Idle(a)
    ensures Leads(a, steps, b)
    ensures b.link.rtcChannel.Some? && b.link.rtcChannel.value in b.channels && a.next in b.openings
    ensures b.openings[a.next].peer != b.link.rtcChannel
    ensures b.channels[b.link.rtcChannel.value].sent == [Item(a.next), ResponseCreate(a.next)]
  {
    var first := UndisturbedOpeningConnects(a, true);
    var again, c := Reopens(first);
    TextIsSent(c, a.next, c.next - 1);
    b := Next(c, Resume(a.next, Resolved));
    steps := Opens(a, true) + again + [Resume(a.next, Resolved)];
    LeadsOn(a, Opens(a, true), first, again, c, Resume(a.next, Resolved));
  }

  // The same with a text typed on a connected page.
  lemma TypedTextGoesToSuccessor(a: App) returns (steps: seq<Step>, b: App)
    requires Inv(a) && a.link.ready
    ensures Leads(a, steps, b)
    ensures b.link.rtcChannel.Some? && b.link.rtcChannel.value in b.channels && b.link.rtcChannel != a.link.rtcChannel
    ensures b.channels[b.link.rtcChannel.value].sent == [Item(a.next), ResponseCreate(a.next)]
  {
    var typed := Next(a, Submit);
    LeadsOne(a, Submit);
    NextKeepsInv(a, Submit);
    var again, c := Reopens(typed);
    b := Next(c, Stored(a.next));
    steps := [Submit] + again + [Stored(a.next)];
    LeadsOn(a, [Submit], typed, again, c, Stored(a.next));
  }

  // ------------------------------------------------------------------
  // The page's state object
  // ------------------------------------------------------------------

  ghost predicate AllGivenUp(a: App) {
    && (forall p :: p in a.peers ==> !a.peers[p].open) && (forall m :: m in a.mics ==> !a.mics[m].live)
    && (forall p :: p in a.channels ==> a.channels[p].state != Open)
  }

  ghost predicate AllOvertaken(a: App) {
    forall id :: id in a.openings ==> a.openings[id].generation < a.link.generation
  }

  lemma ClosedFacts(a: App)
    requires Inv(a)
    ensures AllGivenUp(Closed(a)) && AllOvertaken(Closed(a)) && AllGivenUp(End(a))
  {
    assert forall id :: id in a.openings ==> OpeningInv(a, id);
  }

  ghost predicate UnderWay(a: App) {
    a.link.rtcPeer.Some? ||
    (a.link.promise.Some? && a.link.promise.value in a.openings
     && a.openings[a.link.promise.value].generation == a.link.generation)
  }

  ghost predicate MicReleased(a: App, mic: Option<nat>) {
    mic.Some? ==> mic.value in a.mics && !a.mics[mic.value].live
  }

  lemma CatchFacts(a: App, id: nat)
    requires Inv(a) && id in a.openings
    ensures Inv(Catch(a, id, a.openings[id])) && MicReleased(Catch(a, id, a.openings[id]), a.openings[id].mic)
  {
    CatchKeepsInv(a, id);
    CatchFollows(a, id, a.openings[id]);
    FollowsKeepsInv(a, Catch(a, id, a.openings[id]));
    assert OpeningInv(a, id);
    if a.openings[id].generation == a.link.generation {
      ClosedFacts(a);
    }
  }

  ghost predicate MicIsOursOrStopped(a: App, m: nat) {
    m in a.mics && (a.mics[m].live <==> a.link.rtcStream == Some(m))
  }

  lemma GrantFacts(a: App, id: nat)
    requires Inv(a) && id in a.openings && Seeking(a.openings[id].stage)
    ensures
      var b := MicGranted(a, id, a.openings[id]);
      Inv(b) && MicIsOursOrStopped(b, a.next)
  {
    NextKeepsInv(a, Resume(id, Resolved));
    InvMeansOneLive(MicGranted(a, id, a.openings[id]));
  }

  lemma ResumeKeepsPage(a: App, id: nat, event: Event)
    requires Inv(a) && id in a.openings && !a.openings[id].stage.Returned?
    ensures Inv(Resumed(a, id, event)) && OneLive(Resumed(a, id, event))
  {
    ResumeKeepsInv(a, id, event);
    ResumeFollows(a, id, event);
    FollowsKeepsInv(a, Resumed(a, id, event));
    InvMeansOneLive(Resumed(a, id, event));
  }

  lemma PostTwice(channels: map<nat, Channel>, to: Option<nat>, first: seq<Sent>, second: seq<Sent>, both: seq<Sent>)
    requires both == first + second
    ensures Post(Post(channels, to, first), to, second) == Post(channels, to, both)
  {
    if to.Some? && to.value in channels {
      var sent := channels[to.value].sent;
      assert sent + first + second == sent + both;
    }
  }

  class VoiceApp {
    var generation: nat
    var conversationActive: bool
    var realtimeReady: bool
    var busy: bool
    var autoStart: bool
    var channelTimer: bool
    var rtcPeer: Option<nat>
    var rtcChannel: Option<nat>
    var rtcStream: Option<nat>
    var connectionPromise: Option<nat>
    var openings: map<nat, Opening>
    var turns: map<nat, Turn>
    var peers: map<nat, Peer>
    var channels: map<nat, Channel>
    var mics: map<nat, Mic>
    var next: nat

    function Contents(): App
      reads this
    {
      App(Link(generation, conversationActive, realtimeReady, rtcPeer, rtcChannel, rtcStream, connectionPromise),
          Marks(busy, autoStart, channelTimer), openings, turns, peers, channels, mics, next)
    }

    ghost predicate Valid()
      reads this
    {
      Inv(Contents())
    }

    constructor ()
      ensures Contents() == INITIAL && Valid()
    {
      generation, conversationActive, realtimeReady, busy, autoStart, channelTimer := 0, false, false, false, false, false;
      rtcPeer, rtcChannel, rtcStream, connectionPromise := None, None, None, None;
      openings, turns, peers, channels, mics, next := map[], map[], map[], map[], map[], 0;
    }

    method StopTracks(stream: Option<nat>)
      modifies this`mics
      ensures mics == StopMic(old(mics), stream)
    {
      if stream.Some? && stream.value in mics {
        mics := mics[stream.value := mics[stream.value].(live := false)];
      }
    }

    method ShutDown(channel: Option<nat>, peer: Option<nat>)
      modifies this`channels, this`peers
      ensures channels == ShutChannel(old(channels), channel) && peers == ClosePeer(old(peers), peer)
    {
      if channel.Some? && channel.value in channels {
        channels := channels[channel.value := channels[channel.value].(state := Shut)];
      }
      if peer.Some? && peer.value in peers {
        peers := peers[peer.value := peers[peer.value].(open := false)];
      }
    }

    // A new generation cancels every timer.
    method Renew()
      modifies this`generation, this`autoStart, this`channelTimer
      ensures generation == old(generation) + 1 && !autoStart && !channelTimer
    {
      generation := generation + 1;
      autoStart, channelTimer := false, false;
    }

    // The statements of closeRealtime.
    method GiveUp()
      modifies this`generation, this`autoStart, this`channelTimer, this`connectionPromise, this`realtimeReady, this`rtcChannel,
        this`rtcPeer, this`rtcStream, this`channels, this`peers, this`mics
      ensures generation == old(generation) + 1 && !autoStart && !channelTimer && connectionPromise == None && !realtimeReady
      ensures rtcChannel == rtcPeer == rtcStream == None
      ensures channels == ShutChannel(old(channels), old(rtcChannel)) && peers == ClosePeer(old(peers), old(rtcPeer))
      ensures mics == StopMic(old(mics), old(rtcStream))
    {
      Renew();
      connectionPromise, realtimeReady := None, false;
      var channel, peer, stream := rtcChannel, rtcPeer, rtcStream;
      rtcChannel, rtcPeer, rtcStream := None, None, None;
      ShutDown(channel, peer);
      StopTracks(stream);
    }

    // From any state.
    method TearDown()
      modifies this
      ensures Contents() == Closed(old(Contents()))
    {
      GiveUp();
      assert Contents().link == Closed(old(Contents())).link;
    }

    // Afterwards nothing is open or live, whatever was under way, and every opening under way has been overtaken.
    method CloseRealtime()
      requires Valid()
      modifies this
      ensures Valid() && Contents() == Closed(old(Contents()))
      ensures AllGivenUp(Contents()) && AllOvertaken(Contents())
      ensures generation == old(generation) + 1 && !realtimeReady && !autoStart && !channelTimer
      ensures rtcPeer == rtcChannel == rtcStream == connectionPromise == None && openings == old(openings) && turns == old(turns)
    {
      NextKeepsInv(Contents(), Close);
      ClosedFacts(Contents());
      TearDown();
    }

    // The statements of openRealtime up to its first await.
    method MakeOpening(text: bool) returns (id: nat)
      modifies this`generation, this`autoStart, this`channelTimer, this`next, this`openings, this`conversationActive, this`busy
      ensures generation == old(generation) + 1 && !autoStart && !channelTimer && conversationActive && busy
      ensures id == old(next) && next == id + 1
      ensures openings == old(openings)[id := Opening(generation, text, AwaitMic, None, None)]
    {
      Renew();
      id := next;
      next := next + 1;
      openings := openings[id := Opening(generation, text, AwaitMic, None, None)];
      conversationActive := true;
      busy := true;
    }

    // The statements of startRealtime, from any state.
    method BeginOpening(text: bool)
      modifies this
      ensures Contents() == Started(old(Contents()), text)
    {
      if connectionPromise.Some? { return; }
      if realtimeReady || rtcPeer.Some? { return; }
      var id := MakeOpening(text);
      connectionPromise := Some(id);
    }

    // Afterwards the page is connected or an opening of the current generation is under way; no connection, channel
    // or microphone has been touched.
    method StartRealtime(text: bool)
      requires Valid()
      modifies this
      ensures Valid() && Contents() == Started(old(Contents()), text)
      ensures UnderWay(Contents())
      ensures if Idle(old(Contents()))
              then generation == old(generation) + 1 && conversationActive && connectionPromise == Some(old(next))
                   && busy && !autoStart && !channelTimer
                   && openings == old(openings)[old(next) := Opening(generation, text, AwaitMic, None, None)]
              else Contents() == old(Contents())
      ensures peers == old(peers) && channels == old(channels) && mics == old(mics)
    {
      NextKeepsInv(Contents(), Start(text));
      BeginOpening(text);
    }

    // An event of a peer that is no longer the page's changes nothing; one of the page's own peer closes everything.
    method RecoverRealtime(peer: nat, connected: bool)
      requires Valid()
      modifies this
      ensures Valid() && Contents() == Recovered(old(Contents()), peer, connected)
      ensures old(rtcPeer) != Some(peer) ==> Contents() == old(Contents())
      ensures old(rtcPeer) == Some(peer) ==> !conversationActive && AllGivenUp(Contents())
      ensures old(rtcPeer) == Some(peer) ==> generation == old(generation) + 1 && (if connected then !busy else busy == old(busy))
    {
      NextKeepsInv(Contents(), Step.Recover(peer, connected));
      ClosedFacts(Contents());
      Recover(peer, connected);
    }

    method Recover(peer: nat, connected: bool)
      modifies this
      ensures Contents() == Recovered(old(Contents()), peer, connected)
    {
      if rtcPeer != Some(peer) { return; }
      if !conversationActive || !connected {
        HangUp();
        return;
      }
      TearDown();
      conversationActive := false;
      busy := false;
    }

    // The statements of endConversation.
    method HangUp()
      modifies this
      ensures Contents() == End(old(Contents()))
    {
      conversationActive := false;
      TearDown();
    }

    method EndConversation()
      requires Valid()
      modifies this
      ensures Valid() && Contents() == End(old(Contents()))
      ensures !conversationActive && AllGivenUp(Contents()) && generation == old(generation) + 1 && busy == old(busy)
    {
      NextKeepsInv(Contents(), Step.EndConversation);
      ClosedFacts(Contents());
      HangUp();
    }

    // The catch clause of openRealtime. The failed opening leaves no live microphone behind.
    method CatchError(id: nat)
      requires id in openings
      modifies this
      ensures Contents() == Catch(old(Contents()), id, old(openings)[id])
      ensures old(Valid()) ==> Valid() && MicReleased(Contents(), old(openings)[id].mic)
      ensures if old(openings)[id].generation == old(generation)
              then !conversationActive && !realtimeReady && !busy && rtcPeer == rtcChannel == rtcStream == connectionPromise == None
              else Contents().link == old(Contents()).link && Contents().marks == old(Contents()).marks
    {
      if Inv(Contents()) { CatchFacts(Contents(), id); }
      Abandon(id);
    }

    method Abandon(id: nat)
      requires id in openings
      modifies this
      ensures Contents() == Catch(old(Contents()), id, old(openings)[id])
    {
      var opening := openings[id];
      if opening.generation != generation {
        StopTracks(opening.mic);
      } else {
        TearDown();
        conversationActive := false;
        busy := false;
      }
      openings := openings[id := opening.(stage := Returned)];
    }

    // The current opening takes the new stream and makes a connection for it.
    method Connect(id: nat, stream: nat)
      requires id in openings
      modifies this`next, this`peers, this`channels, this`rtcPeer, this`rtcChannel, this`rtcStream, this`openings
      ensures next == old(next) + 1 && rtcPeer == rtcChannel == Some(old(next)) && rtcStream == Some(stream)
      ensures peers == old(peers)[old(next) := Peer(true, old(openings)[id].generation)]
      ensures channels == old(channels)[old(next) := Channel(Joining, [])]
      ensures openings == old(openings)[id := old(openings)[id].(peer := Some(old(next)), stage := AwaitOffer)]
    {
      var opening, pc := openings[id], next;
      next := next + 1;
      peers := peers[pc := Peer(true, opening.generation)];
      channels := channels[pc := Channel(Joining, [])];
      rtcPeer, rtcChannel, rtcStream := Some(pc), Some(pc), Some(stream);
      openings := openings[id := opening.(peer := Some(pc), stage := AwaitOffer)];
    }

    // The stream exists.
    method Hold(id: nat) returns (stream: nat)
      requires id in openings
      modifies this`next, this`mics, this`openings
      ensures stream == old(next) && next == stream + 1
      ensures mics == old(mics)[stream := Mic(true, old(openings)[id].generation)]
      ensures openings == old(openings)[id := old(openings)[id].(mic := Some(stream))]
    {
      stream := next;
      next := next + 1;
      mics := mics[stream := Mic(true, openings[id].generation)];
      openings := openings[id := openings[id].(mic := Some(stream))];
    }

    method Grasp(id: nat)
      requires id in openings
      modifies this
      ensures Contents() == MicGranted(old(Contents()), id, old(openings)[id])
      ensures if old(openings)[id].generation == old(generation)
              then rtcStream == Some(old(next)) && rtcPeer == rtcChannel == Some(old(next) + 1)
                   && peers == old(peers)[old(next) + 1 := Peer(true, generation)]
                   && channels == old(channels)[old(next) + 1 := Channel(Joining, [])]
                   && mics == old(mics)[old(next) := Mic(true, generation)]
              else Contents().link == old(Contents()).link && peers == old(peers) && channels == old(channels)
                   && mics == old(mics)[old(next) := Mic(false, old(openings)[id].generation)]
    {
      var opening := openings[id];
      var stream := Hold(id);
      var granted := openings[id];
      if opening.generation != generation {
        Rewritten(old(openings), id, opening, granted, granted.(stage := Returned));
        Abandon(id);
      } else {
        Rewritten(old(openings), id, opening, granted, granted.(peer := Some(next), stage := AwaitOffer));
        Connect(id, stream);
      }
    }

    // After `await getUserMedia(...)`: the new stream is the page's, or has been stopped.
    method TakeMicrophone(id: nat)
      requires Valid() && id in openings && Seeking(openings[id].stage)
      modifies this
      ensures Valid() && Contents() == MicGranted(old(Contents()), id, old(openings)[id])
      ensures MicIsOursOrStopped(Contents(), old(next))
      ensures if old(openings)[id].generation == old(generation)
              then rtcStream == Some(old(next)) && rtcPeer == rtcChannel == Some(old(next) + 1)
                   && peers == old(peers)[old(next) + 1 := Peer(true, generation)]
                   && channels == old(channels)[old(next) + 1 := Channel(Joining, [])]
                   && mics == old(mics)[old(next) := Mic(true, generation)]
              else Contents().link == old(Contents()).link && peers == old(peers) && channels == old(channels)
                   && mics == old(mics)[old(next) := Mic(false, old(openings)[id].generation)]
    {
      GrantFacts(Contents(), id);
      Grasp(id);
    }

    // assertCurrent, then on to the next await.
    method Proceed(id: nat, stage: Stage)
      requires id in openings
      modifies this
      ensures Contents() == Continue(old(Contents()), id, old(openings)[id], stage)
    {
      if openings[id].generation != generation { CatchError(id); return; }
      openings := openings[id := openings[id].(stage := stage)];
    }

    method AwaitOpenChannel(id: nat)
      requires id in openings
      modifies this
      ensures Contents() == Awaiting(old(Contents()), id, old(openings)[id])
    {
      if openings[id].generation != generation { CatchError(id); return; }
      channelTimer := true;
      openings := openings[id := openings[id].(stage := AwaitChannel)];
    }

    method SendRealtime(what: Sent)
      modifies this`channels
      ensures channels == Post(old(channels), rtcChannel, [what])
    {
      if rtcChannel.None? || rtcChannel.value !in channels || channels[rtcChannel.value].state != Open { return; }
      channels := channels[rtcChannel.value := Channel(Open, channels[rtcChannel.value].sent + [what])];
    }

    // After the text was stored.
    method SayText(id: nat)
      requires id in openings
      modifies this`channels, this`openings, this`autoStart, this`busy
      ensures channels == Post(old(channels), rtcChannel, [Item(id), ResponseCreate(id)]) && !autoStart && !busy
      ensures openings == old(openings)[id := old(openings)[id].(stage := Returned)]
    {
      openings := openings[id := openings[id].(stage := Returned)];
      PostTwice(channels, rtcChannel, [Item(id)], [ResponseCreate(id)], [Item(id), ResponseCreate(id)]);
      SendRealtime(Item(id));
      SendRealtime(ResponseCreate(id));
      autoStart, busy := false, false;
    }

    method SpeakText(id: nat, event: Event)
      requires id in openings && openings[id].stage.AwaitPersist?
      modifies this
      ensures Contents() == Resumed(old(Contents()), id, event)
    {
      SayText(id);
    }

    // After the data channel opened.
    method BecomeReady(id: nat)
      requires id in openings
      modifies this`realtimeReady, this`openings, this`autoStart, this`busy
      ensures realtimeReady
      ensures openings ==
              old(openings)[id := old(openings)[id].(stage := if old(openings)[id].text then AwaitPersist else Returned)]
      ensures if old(openings)[id].text then autoStart == old(autoStart) && busy == old(busy) else !autoStart && !busy
    {
      realtimeReady := true;
      if openings[id].text {
        openings := openings[id := openings[id].(stage := AwaitPersist)];
        return;
      }
      openings := openings[id := openings[id].(stage := Returned)];
      autoStart, busy := false, false;
    }

    method Conclude(id: nat, event: Event)
      requires id in openings && openings[id].stage.AwaitChannel?
      modifies this
      ensures Contents() == Resumed(old(Contents()), id, event)
    {
      if !event.Resolved? { CatchError(id); return; }
      channelTimer := false;
      Join(id);
    }

    method Join(id: nat)
      requires id in openings
      modifies this
      ensures Contents() == Joined(old(Contents()), id, old(openings)[id])
    {
      if openings[id].generation != generation { CatchError(id); return; }
      BecomeReady(id);
    }

    // The opening is resumed with the outcome of what it awaited.
    method ResumeOpening(id: nat, event: Event)
      requires Valid() && id in openings && !openings[id].stage.Returned?
      modifies this
      ensures Valid() && Contents() == Resumed(old(Contents()), id, event)
      ensures id in openings && openings[id].stage ==
              StageAfter(old(openings)[id].stage, event, old(openings)[id].generation == old(generation), old(openings)[id].text)
      ensures realtimeReady && !old(realtimeReady) ==>
                old(openings)[id].stage.AwaitChannel? && event.Resolved? && old(openings)[id].generation == old(generation)
      ensures OneLive(Contents())
      ensures old(openings[id].generation != generation && !openings[id].stage.AwaitPersist?
                  && !CancelsTimer(Contents(), id, event)) ==>
                Harmless(old(Contents()), Contents())
    {
      ResumeKeepsPage(Contents(), id, event);
      ResumedSteps(Contents(), id, event);
      if openings[id].generation != generation && !openings[id].stage.AwaitPersist? && !CancelsTimer(Contents(), id, event) {
        OvertakenStep(Contents(), id, event);
      }
      Dispatch(id, event);
    }

    method Dispatch(id: nat, event: Event)
      requires Valid() && id in openings && !openings[id].stage.Returned?
      modifies this
      ensures Contents() == Resumed(old(Contents()), id, event)
    {
      var opening := openings[id];
      match opening.stage {
        case AwaitMic =>
          if event.Resolved? { TakeMicrophone(id); }
          else if event.PreferredMicFailed? { openings := openings[id := opening.(stage := AwaitOtherMic)]; }
          else { CatchError(id); }
        case AwaitOtherMic =>
          if event.Resolved? { TakeMicrophone(id); } else { CatchError(id); }
        case AwaitOffer =>
          if event.Resolved? { Proceed(id, AwaitLocal); } else { CatchError(id); }
        case AwaitLocal =>
          if event.Resolved? { Proceed(id, AwaitFetch); } else { CatchError(id); }
        case AwaitFetch =>
          if event.Resolved? { Proceed(id, AwaitAnswer); }
          else if event.NotOk? { Proceed(id, AwaitErrorText); }
          else { CatchError(id); }
        case AwaitErrorText =>
          CatchError(id);
        case AwaitAnswer =>
          if event.Resolved? { openings := openings[id := opening.(stage := AwaitRemote)]; } else { CatchError(id); }
        case AwaitRemote =>
          if event.Resolved? { AwaitOpenChannel(id); } else { CatchError(id); }
        case AwaitChannel =>
          Conclude(id, event);
        case AwaitPersist =>
          SpeakText(id, event);
      }
    }

    // The promise's finally clause. Connection, microphones and readiness stay as they are.
    method Settle(id: nat)
      requires Valid() && id in openings && openings[id].stage.Returned?
      modifies this`connectionPromise, this`openings
      ensures Valid() && Contents() == Settled(old(Contents()), id)
      ensures connectionPromise == (if old(connectionPromise) == Some(id) then None else old(connectionPromise))
      ensures openings == old(openings) - {id}
    {
      NextKeepsInv(Contents(), Step.Settle(id));
      Forget(id);
    }

    method Forget(id: nat)
      modifies this`connectionPromise, this`openings
      ensures Contents() == Settled(old(Contents()), id)
    {
      if connectionPromise == Some(id) { connectionPromise := None; }
      openings := openings - {id};
    }

    // A typed text waits for its storing, or starts a connection that is to send it. While a connection is being made
    // or is up without being ready, it is dropped.
    method SubmitMessage()
      requires Valid()
      modifies this
      ensures Valid() && Contents() == Next(old(Contents()), if old(realtimeReady) then Submit else Start(true))
      ensures Contents() == old(Contents()) <==> !old(realtimeReady) && !Idle(old(Contents()))
      ensures old(realtimeReady) ==>
                && turns == old(turns)[old(next) := Typed(generation, rtcChannel)] && next == old(next) + 1
                && openings == old(openings) && Contents().link == old(Contents()).link && busy == old(busy)
                && channels == old(channels)
      ensures Idle(old(Contents())) ==>
                && generation == old(generation) + 1 && conversationActive && busy && connectionPromise == Some(old(next))
                && openings == old(openings)[old(next) := Opening(generation, true, AwaitMic, None, None)]
    {
      NextKeepsInv(Contents(), if realtimeReady then Submit else Start(true));
      if realtimeReady { AwaitStored(); } else { BeginOpening(true); }
    }

    method AwaitStored()
      modifies this`turns, this`next
      ensures Contents() == Begun(old(Contents()), Typed(generation, rtcChannel))
    {
      turns := turns[next := Typed(generation, rtcChannel)];
      next := next + 1;
    }

    // The text was stored: it is sent, after the running answer was stopped. Only the page's channel can get it.
    method SendTyped(id: nat)
      requires Valid() && id in turns && turns[id].Typed?
      modifies this`channels, this`busy, this`turns
      ensures Valid() && Contents() == Next(old(Contents()), Stored(id))
      ensures turns == old(turns) - {id} && busy
      ensures channels == Post(old(channels), rtcChannel,
                               (if old(busy) then [Cancel(id)] else []) + [Item(id), ResponseCreate(id)])
    {
      NextKeepsInv(Contents(), Stored(id));
      SpeakTyped(id);
    }

    method SpeakTyped(id: nat)
      requires id in turns && turns[id].Typed?
      modifies this`channels, this`busy, this`turns
      ensures Contents() == TypedSent(old(Contents()), id)
    {
      SayTyped(id);
      busy := true;
      turns := turns - {id};
    }

    method SayTyped(id: nat)
      modifies this`channels
      ensures channels == Post(old(channels), rtcChannel, TypedSpeech(id, busy))
    {
      var item, create, both := Item(id), ResponseCreate(id), [Item(id), ResponseCreate(id)];
      PostTwice(channels, rtcChannel, [item], [create], both);
      if busy {
        ghost var stopped := Post(channels, rtcChannel, [Cancel(id)]);
        PostTwice(channels, rtcChannel, [Cancel(id)], both, [Cancel(id)] + both);
        PostTwice(stopped, rtcChannel, [item], [create], both);
        SendRealtime(Cancel(id));
      }
      SendRealtime(item);
      SendRealtime(create);
      assert [] + both == both;
    }

    // The loop over the tool calls of one answer, up to its first await.
    method RunRealtimeTools(calls: nat)
      requires Valid() && calls > 0 && ChannelOpen(Contents())
      modifies this`busy, this`turns, this`next
      ensures Valid() && Contents() == Next(old(Contents()), ToolsAsked(calls))
      ensures busy && turns == old(turns)[old(next) := Tools(generation, rtcChannel, calls)] && next == old(next) + 1
    {
      NextKeepsInv(Contents(), ToolsAsked(calls));
      CallFirst(calls);
    }

    method CallFirst(calls: nat)
      modifies this`busy, this`turns, this`next
      ensures Contents() == Busy(Begun(old(Contents()), Tools(generation, rtcChannel, calls)), true)
    {
      busy := true;
      turns := turns[next := Tools(generation, rtcChannel, calls)];
      next := next + 1;
    }

    // One call has come to an end: its output is sent, and after the last one an answer asked for.
    method SendOutput(id: nat)
      requires Valid() && id in turns && turns[id].Tools?
      modifies this`channels, this`busy, this`turns
      ensures Valid() && Contents() == Next(old(Contents()), Answered(id))
      ensures busy == (old(busy) || old(turns)[id].left > 1)
      ensures old(turns)[id].left <= 1 ==>
                turns == old(turns) - {id} && channels == Post(old(channels), rtcChannel, [Output(id), ResponseCreate(id)])
      ensures old(turns)[id].left > 1 ==>
                && id in turns && turns[id].Tools? && turns[id].left == old(turns)[id].left - 1
                && channels == Post(old(channels), rtcChannel, [Output(id)])
    {
      assert [Output(id)] + [ResponseCreate(id)] == [Output(id), ResponseCreate(id)] && [Output(id)] + [] == [Output(id)];
      NextKeepsInv(Contents(), Answered(id));
      SpeakOutput(id);
    }

    method SpeakOutput(id: nat)
      requires id in turns && turns[id].Tools?
      modifies this`channels, this`busy, this`turns
      ensures Contents() == ToolAnswered(old(Contents()), id, old(turns)[id])
    {
      var turn := turns[id];
      SayOutput(id, turn.left);
      if turn.left <= 1 {
        turns := turns - {id};
      } else {
        busy := true;
        turns := turns[id := turn.(left := turn.left - 1)];
      }
    }

    method SayOutput(id: nat, left: nat)
      modifies this`channels
      ensures channels == Post(old(channels), rtcChannel, ToolSpeech(id, left))
    {
      PostTwice(channels, rtcChannel, [Output(id)], [ResponseCreate(id)], [Output(id)] + [ResponseCreate(id)]);
      SendRealtime(Output(id));
      if left <= 1 { SendRealtime(ResponseCreate(id)); }
      assert [Output(id)] + [] == [Output(id)];
    }
  }
}
