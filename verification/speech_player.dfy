/**
 Spoken replies: the server synthesises the chunks of a reply concurrently and publishes one event per
 chunk, in any order, then one that ends the reply; the kiosk plays them in order through a reorder
 buffer. Events may be delivered late, more than once and out of order.
 */
module SpeechPlayer {
  import opened Prelude
  import SpeechText

  // A received chunk: backend audio, or text for the browser's own voice. `mute` marks a text the browser
  // has nothing to say for.
  datatype Clip = Clip(text: string, audio: bool, mute: bool)

  // A started playback: its media element runs, its browser speech runs, or it reported its end.
  datatype Stage = Sounding | Speaking | Done
  datatype Playback = Playback(clip: Clip, stage: Stage)

  datatype Player = Player(
    canSpeak: bool,                   // the browser has speech synthesis
    nonce: Option<nat>,               // activeNonce
    buffer: map<nat, Clip>,           // audioBuffer
    nextSeq: nat,
    total: nat,                       // totalSeq
    ended: bool,                      // ttsEnded
    playing: bool,                    // audioPlaying
    playbacks: map<nat, Playback>,    // the callbacks handed out so far, by sequence number
    heard: seq<string>,               // bookkeeping: every chunk started, in order
    spoken: seq<string>,              // bookkeeping: every chunk whose audio or speech ended, in order
    skipped: set<nat>,                // bookkeeping: chunks passed over without a word
    broken: set<nat>,                 // bookkeeping: chunks whose audio failed
    turns: nat)                       // bookkeeping: how often the turn was finished

  datatype Event =
    | Chunk(nonce: nat, seqNo: nat, total: nat, clip: Clip)
    | Completed(nonce: nat, total: nat)

  // ------------------------------------------------------------------
  // The reorder buffer
  // ------------------------------------------------------------------

  function Start(p: Player, clip: Clip): Player {
    p.(buffer := p.buffer - {p.nextSeq}, playing := true, heard := p.heard + [clip.text],
       playbacks := p.playbacks[p.nextSeq := Playback(clip, if clip.audio then Sounding else Speaking)])
  }

  // Browser speech with nothing to say, or without a synthesiser, reports its end before it returns.
  predicate Instant(p: Player, clip: Clip) {
    !p.canSpeak || clip.mute
  }

  function PlayNext(p: Player): Player
    decreases |p.buffer|, 0
  {
    if p.playing then p
    else if p.nextSeq !in p.buffer then
      if p.ended && p.nextSeq >= p.total then p.(turns := p.turns + 1) else p
    else
      var clip := p.buffer[p.nextSeq];
      var q := Start(p, clip);
      assert q.buffer.Keys == p.buffer.Keys - {p.nextSeq};
      if !clip.audio && Instant(p, clip) then ChunkFinished(q, q.nextSeq, false) else q
  }

  // The next chunk, after one that was said or passed over.
  function ChunkFinished(p: Player, seqNo: nat, said: bool): Player
    decreases |p.buffer|, 1
  {
    PlayNext(Retire(p, seqNo, said))
  }

  function Retire(p: Player, seqNo: nat, said: bool): Player {
    p.(playbacks := if seqNo in p.playbacks then p.playbacks[seqNo := p.playbacks[seqNo].(stage := Done)] else p.playbacks,
       playing := false, nextSeq := p.nextSeq + 1,
       spoken := if said && seqNo in p.playbacks then p.spoken + [p.playbacks[seqNo].clip.text] else p.spoken,
       skipped := if said then p.skipped else p.skipped + {seqNo})
  }

  function Total(p: Player, total: nat): nat {
    if total != 0 then total else p.total
  }

  function ResetAudio(p: Player, nonce: nat, total: nat): Player {
    p.(nonce := Some(nonce), buffer := map[], nextSeq := 0, total := total, ended := false, playing := false)
  }

  function Receive(p: Player, e: Event): Player {
    if p.nonce.Some? && e.nonce != p.nonce.value then p
    else
      match e
      case Chunk(nonce, seqNo, total, clip) =>
        var q := if p.nonce.None? then ResetAudio(p, nonce, total) else p;
        PlayNext(q.(total := Total(q, total), buffer := q.buffer[seqNo := clip]))
      case Completed(_, total) => PlayNext(p.(total := Total(p, total), ended := true))
  }

  predicate Runs(p: Player, seqNo: nat, stage: Stage) {
    seqNo in p.playbacks && p.playbacks[seqNo].stage == stage
  }

  // The media element ended; only the first report of a playback counts.
  function MediaEnded(p: Player, seqNo: nat): Player {
    if Runs(p, seqNo, Sounding) then ChunkFinished(p, seqNo, true) else p
  }

  // The media element failed: the browser speaks the text instead.
  function MediaFailed(p: Player, seqNo: nat): Player {
    if !Runs(p, seqNo, Sounding) then p
    else
      var clip := p.playbacks[seqNo].clip;
      var q := p.(broken := p.broken + {seqNo});
      if clip.text != "" && !Instant(p, clip)
      then q.(playbacks := p.playbacks[seqNo := Playback(clip, Speaking)])
      else ChunkFinished(q, seqNo, false)
  }

  function SpeechEnded(p: Player, seqNo: nat): Player {
    if Runs(p, seqNo, Speaking) then ChunkFinished(p, seqNo, true) else p
  }

  // ------------------------------------------------------------------
  // The whole pipeline
  // ------------------------------------------------------------------

  datatype World = World(
    chunks: seq<string>,
    limit: nat,                       // VOICE_TTS_CONCURRENCY
    synthesising: set<nat>,
    ready: set<nat>,                  // synthesised, not yet published
    published: set<nat>,
    failed: set<nat>,                 // tasks that raised; the number of chunks stands for the final event
    log: seq<Event>,                  // everything published, in order
    arrived: set<nat>,                // bookkeeping: chunks delivered at least once
    player: Player)

  const NONCE: nat := 0

  // The status event announced the reply to a kiosk that plays nothing.
  function Announced(chunks: seq<string>, limit: nat, canSpeak: bool): World {
    World(chunks, limit, {}, {}, {}, {}, [], {},
          Player(canSpeak, Some(NONCE), map[], 0, |chunks|, false, false, map[], [], [], {}, {}, 0))
  }

  datatype Step =
    | Acquire(seqNo: nat)             // a task enters the semaphore
    | Synthesised(seqNo: nat)         // and leaves it
    | Publish(seqNo: nat, audio: bool, mute: bool)
    | Fail(seqNo: nat)                // a task raises or is cancelled, at any point
    | PublishCompleted                // after every task, if none raised
    | Deliver(k: nat)                 // any published event, any number of times
    | Foreign(e: Event)               // an event of another reply
    | OnEnded(seqNo: nat)
    | OnFailed(seqNo: nat)
    | OnSpoken(seqNo: nat)

  predicate IsComplete(w: World) {
    w.log != [] && w.log[|w.log| - 1].Completed?
  }

  predicate Enabled(w: World, s: Step) {
    match s
    case Acquire(i) =>
      i < |w.chunks| && i !in w.synthesising && i !in w.ready && i !in w.published && i !in w.failed && |w.synthesising| < w.limit
    case Synthesised(i) => i in w.synthesising
    case Publish(i, _, _) => i in w.ready
    case Fail(i) => i <= |w.chunks| && !IsComplete(w)
    case PublishCompleted => !IsComplete(w) && w.failed == {} && forall i :: 0 <= i < |w.chunks| ==> i in w.published
    case Deliver(k) => k < |w.log|
    case Foreign(e) => e.nonce != NONCE
    case OnEnded(_) => true
    case OnFailed(_) => true
    case OnSpoken(_) => true
  }

  function Next(w: World, s: Step): World
    requires Enabled(w, s)
  {
    match s
    case Acquire(i) => w.(synthesising := w.synthesising + {i})
    case Synthesised(i) => w.(synthesising := w.synthesising - {i}, ready := w.ready + {i})
    case Publish(i, audio, mute) =>
      if i < |w.chunks| then
        w.(ready := w.ready - {i}, published := w.published + {i},
           log := w.log + [Chunk(NONCE, i, |w.chunks|, Clip(w.chunks[i], audio, mute))])
      else w
    case Fail(i) => w.(synthesising := w.synthesising - {i}, ready := w.ready - {i}, failed := w.failed + {i})
    case PublishCompleted => w.(log := w.log + [Completed(NONCE, |w.chunks|)])
    case Deliver(k) =>
      w.(player := Receive(w.player, w.log[k]),
         arrived := if w.log[k].Chunk? then w.arrived + {w.log[k].seqNo} else w.arrived)
    case Foreign(e) => w.(player := Receive(w.player, e))
    case OnEnded(i) => w.(player := MediaEnded(w.player, i))
    case OnFailed(i) => w.(player := MediaFailed(w.player, i))
    case OnSpoken(i) => w.(player := SpeechEnded(w.player, i))
  }

  // ------------------------------------------------------------------
  // Invariants
  // ------------------------------------------------------------------

  // Nothing is said of the chunk: the browser has nothing to say for it, or cannot speak, when it is its turn to.
  ghost predicate Unheard(p: Player, i: nat)
    requires i in p.playbacks
  {
    var clip := p.playbacks[i].clip;
    (!clip.audio && (!p.canSpeak || clip.mute)) || (i in p.broken && (!p.canSpeak || clip.mute || clip.text == ""))
  }

  // The first `n` chunks that were not passed over.
  function Kept(chunks: seq<string>, skipped: set<nat>, n: nat): seq<string>
    requires n <= |chunks|
  {
    if n == 0 then [] else Kept(chunks, skipped, n - 1) + if n - 1 in skipped then [] else [chunks[n - 1]]
  }

  lemma {:induction false} KeptIgnores(chunks: seq<string>, a: set<nat>, b: set<nat>, n: nat)
    requires n <= |chunks| && forall i :: 0 <= i < n ==> (i in a <==> i in b)
    ensures Kept(chunks, a, n) == Kept(chunks, b, n)
  {
    if n > 0 {
      KeptIgnores(chunks, a, b, n - 1);
    }
  }

  // The chunks said are those finished that were not to be passed over.
  ghost predicate SaidInv(p: Player, chunks: seq<string>) {
    && p.nextSeq <= |chunks| && p.spoken == Kept(chunks, p.skipped, p.nextSeq)
    && (forall i :: i in p.playbacks ==> i < |chunks| && p.playbacks[i].clip.text == chunks[i])
    && (forall i :: i in p.skipped <==> i in p.playbacks && p.playbacks[i].stage == Done && Unheard(p, i))
    && (forall i :: i in p.broken ==> i in p.playbacks)
    && (forall i :: i in p.playbacks && p.playbacks[i].stage == Sounding ==> p.playbacks[i].clip.audio)
    && (forall i :: i in p.playbacks && p.playbacks[i].stage == Speaking ==> !p.playbacks[i].clip.audio || i in p.broken)
  }

  // The chunk that is up is not to be passed over, and its audio is not heard after it failed.
  ghost predicate Audible(p: Player)
    requires p.nextSeq in p.playbacks
  {
    !Unheard(p, p.nextSeq) && (p.playbacks[p.nextSeq].stage == Sounding ==> p.nextSeq !in p.broken)
  }

  // What every call keeps, also in the middle of one.
  ghost predicate Orderly(p: Player, chunks: seq<string>) {
    && p.nonce == Some(NONCE) && p.total == |chunks|
    && |p.heard| == p.nextSeq + (if p.playing then 1 else 0)
    && p.heard <= chunks
    && (forall i :: i in p.buffer ==> i < |chunks| && p.buffer[i].text == chunks[i])
    && (forall i :: i in p.playbacks <==> 0 <= i < |p.heard|)
    && (forall i :: i in p.playbacks ==> (p.playbacks[i].stage == Done <==> !(p.playing && i == p.nextSeq)))
    && (p.turns > 0 ==> p.ended && p.nextSeq == |chunks|)
    && SaidInv(p, chunks)
  }

  // Between calls the player has also gone as far as it can.
  ghost predicate Waiting(p: Player) {
    && (!p.playing ==> p.nextSeq !in p.buffer)
    && (!p.playing && p.ended && p.nextSeq >= p.total ==> p.turns > 0)
    && (p.playing ==> p.nextSeq in p.playbacks && Audible(p))
  }

  ghost predicate Has(p: Player, i: nat) {
    i in p.buffer || i < |p.heard|
  }

  ghost predicate Keeps(p: Player, q: Player) {
    && (forall i: nat :: Has(p, i) ==> Has(q, i))
    && (p.ended ==> q.ended)
    && p.heard <= q.heard && p.turns <= q.turns && p.nextSeq <= q.nextSeq
  }

  // Nothing to start: the player rests, or the turn is finished.
  lemma RestKeeps(p: Player, chunks: seq<string>)
    requires Orderly(p, chunks) && !p.playing && p.nextSeq !in p.buffer
    ensures Orderly(PlayNext(p), chunks) && Waiting(PlayNext(p)) && Keeps(p, PlayNext(p))
    ensures PlayNext(p).ended == p.ended && PlayNext(p).spoken == p.spoken
  {
    var q := PlayNext(p);
    assert q.playbacks == p.playbacks && q.skipped == p.skipped && q.broken == p.broken && q.canSpeak == p.canSpeak;
    assert forall i :: i in p.playbacks ==> (Unheard(q, i) <==> Unheard(p, i));
  }

  lemma {:induction false} PlayNextKeeps(p: Player, chunks: seq<string>)
    requires Orderly(p, chunks) && (p.playing ==> Audible(p))
    ensures Orderly(PlayNext(p), chunks) && Waiting(PlayNext(p)) && Keeps(p, PlayNext(p))
    ensures PlayNext(p).ended == p.ended && PlayNext(p).spoken == p.spoken
    decreases |p.buffer|, 0
  {
    if p.playing {
      assert PlayNext(p) == p;
    } else if p.nextSeq !in p.buffer {
      RestKeeps(p, chunks);
    } else {
      var clip := p.buffer[p.nextSeq];
      var q := Start(p, clip);
      StartKeeps(p, chunks);
      StartSaid(p, chunks);
      assert q.buffer.Keys == p.buffer.Keys - {p.nextSeq};
      if !clip.audio && Instant(p, clip) {
        FinishKeeps(q, chunks, false);
        KeepsOn(p, q, PlayNext(p));
      } else {
        assert PlayNext(p) == q;
      }
    }
  }

  lemma KeepsOn(p: Player, q: Player, r: Player)
    requires Keeps(p, q) && Keeps(q, r)
    ensures Keeps(p, r)
  {
  }

  lemma StartSaid(p: Player, chunks: seq<string>)
    requires Orderly(p, chunks) && !p.playing && p.nextSeq in p.buffer
    ensures SaidInv(Start(p, p.buffer[p.nextSeq]), chunks)
    ensures Unheard(Start(p, p.buffer[p.nextSeq]), p.nextSeq) <==> !p.buffer[p.nextSeq].audio && Instant(p, p.buffer[p.nextSeq])
  {
    var q := Start(p, p.buffer[p.nextSeq]);
    assert p.nextSeq !in p.playbacks;
    assert forall i :: i in p.playbacks ==> q.playbacks[i] == p.playbacks[i] && (Unheard(q, i) <==> Unheard(p, i));
  }

  lemma RetireSaid(p: Player, chunks: seq<string>, said: bool)
    requires Orderly(p, chunks) && p.playing && (said <==> !Unheard(p, p.nextSeq))
    ensures SaidInv(Retire(p, p.nextSeq, said), chunks)
  {
    var q := Retire(p, p.nextSeq, said);
    RetireKept(p, chunks, said);
    assert forall i :: i in p.playbacks ==> (Unheard(q, i) <==> Unheard(p, i));
  }

  lemma RetireKept(p: Player, chunks: seq<string>, said: bool)
    requires Orderly(p, chunks) && p.playing
    ensures p.nextSeq !in p.skipped && p.nextSeq < |chunks|
    ensures Retire(p, p.nextSeq, said).spoken == Kept(chunks, Retire(p, p.nextSeq, said).skipped, p.nextSeq + 1)
  {
    KeptStep(chunks, p.skipped, p.nextSeq, said, Retire(p, p.nextSeq, said).skipped);
  }

  lemma KeptStep(chunks: seq<string>, skipped: set<nat>, n: nat, said: bool, after: set<nat>)
    requires n < |chunks| && n !in skipped && after == if said then skipped else skipped + {n}
    ensures Kept(chunks, after, n + 1) == if said then Kept(chunks, skipped, n) + [chunks[n]] else Kept(chunks, skipped, n)
  {
    KeptIgnores(chunks, skipped, after, n);
    assert n in after <==> !said;
    var m := n + 1;
    assert Kept(chunks, after, m) == Kept(chunks, after, m - 1) + if m - 1 in after then [] else [chunks[m - 1]];
  }

  lemma StartKeeps(p: Player, chunks: seq<string>)
    requires Orderly(p, chunks) && !p.playing && p.nextSeq in p.buffer
    ensures Orderly(Start(p, p.buffer[p.nextSeq]), chunks) && Keeps(p, Start(p, p.buffer[p.nextSeq]))
    ensures p.buffer[p.nextSeq].audio || !Instant(p, p.buffer[p.nextSeq]) ==> Waiting(Start(p, p.buffer[p.nextSeq]))
  {
    StartSaid(p, chunks);
    StartHas(p, chunks);
  }

  lemma StartHas(p: Player, chunks: seq<string>)
    requires Orderly(p, chunks) && !p.playing && p.nextSeq in p.buffer
    ensures Keeps(p, Start(p, p.buffer[p.nextSeq]))
  {
  }

  lemma RetireKeeps(p: Player, chunks: seq<string>, said: bool)
    requires Orderly(p, chunks) && p.playing && (said <==> !Unheard(p, p.nextSeq))
    ensures Orderly(Retire(p, p.nextSeq, said), chunks) && Keeps(p, Retire(p, p.nextSeq, said))
  {
    RetireSaid(p, chunks, said);
  }

  lemma {:induction false} FinishKeeps(p: Player, chunks: seq<string>, said: bool)
    requires Orderly(p, chunks) && p.playing && (said <==> !Unheard(p, p.nextSeq))
    ensures Orderly(ChunkFinished(p, p.nextSeq, said), chunks) && Waiting(ChunkFinished(p, p.nextSeq, said))
    ensures Keeps(p, ChunkFinished(p, p.nextSeq, said)) && ChunkFinished(p, p.nextSeq, said).nextSeq > p.nextSeq
    ensures ChunkFinished(p, p.nextSeq, said).ended == p.ended
    ensures !said ==> ChunkFinished(p, p.nextSeq, said).spoken == p.spoken
    decreases |p.buffer|, 1
  {
    var q := Retire(p, p.nextSeq, said);
    RetireKeeps(p, chunks, said);
    PlayNextKeeps(q, chunks);
    KeepsOn(p, q, ChunkFinished(p, p.nextSeq, said));
  }

  ghost predicate Genuine(e: Event, chunks: seq<string>) {
    && e.nonce == NONCE && e.total == |chunks|
    && (e.Chunk? ==> e.seqNo < |chunks| && e.clip.text == chunks[e.seqNo])
  }

  lemma BufferKeeps(p: Player, e: Event, chunks: seq<string>)
    requires Orderly(p, chunks) && Genuine(e, chunks) && e.Chunk?
    ensures
      var q := p.(buffer := p.buffer[e.seqNo := e.clip]);
      && q == p.(total := Total(p, e.total), buffer := p.buffer[e.seqNo := e.clip])
      && Orderly(q, chunks) && Keeps(p, q) && Has(q, e.seqNo) && (p.playing ==> (Audible(q) <==> Audible(p)))
  {
    var q := p.(buffer := p.buffer[e.seqNo := e.clip]);
    assert forall i: nat :: Has(p, i) ==> Has(q, i);
    assert forall i :: i in p.playbacks ==> (Unheard(q, i) <==> Unheard(p, i));
  }

  lemma EndedKeeps(p: Player, chunks: seq<string>)
    requires Orderly(p, chunks)
    ensures
      var q := p.(ended := true);
      Orderly(q, chunks) && Keeps(p, q) && (p.playing ==> (Audible(q) <==> Audible(p)))
  {
    var q := p.(ended := true);
    assert forall i :: i in p.playbacks ==> (Unheard(q, i) <==> Unheard(p, i));
  }

  lemma ReceiveKeeps(p: Player, e: Event, chunks: seq<string>)
    requires Orderly(p, chunks) && Waiting(p) && (Genuine(e, chunks) || e.nonce != NONCE)
    ensures Orderly(Receive(p, e), chunks) && Waiting(Receive(p, e)) && Keeps(p, Receive(p, e))
    ensures Genuine(e, chunks) && e.Chunk? ==> Has(Receive(p, e), e.seqNo)
    ensures Receive(p, e).ended <==> p.ended || (e.nonce == NONCE && e.Completed?)
    ensures Receive(p, e).spoken == p.spoken
  {
    if e.nonce == NONCE {
      if e.Chunk? {
        var q := p.(buffer := p.buffer[e.seqNo := e.clip]);
        BufferKeeps(p, e, chunks);
        PlayNextKeeps(q, chunks);
        KeepsOn(p, q, Receive(p, e));
      } else {
        var q := p.(ended := true);
        EndedKeeps(p, chunks);
        PlayNextKeeps(q, chunks);
        assert Receive(p, e) == PlayNext(q);
        KeepsOn(p, q, PlayNext(q));
      }
    }
  }

  ghost predicate Sound(p: Player, q: Player, chunks: seq<string>) {
    Orderly(q, chunks) && Waiting(q) && Keeps(p, q)
  }

  lemma EndingKeeps(p: Player, seqNo: nat, chunks: seq<string>)
    requires Orderly(p, chunks) && Waiting(p)
    ensures Sound(p, MediaEnded(p, seqNo), chunks) && MediaEnded(p, seqNo).ended == p.ended
  {
    if Runs(p, seqNo, Sounding) {
      FinishKeeps(p, chunks, true);
    }
  }

  lemma SpokenKeeps(p: Player, seqNo: nat, chunks: seq<string>)
    requires Orderly(p, chunks) && Waiting(p)
    ensures Sound(p, SpeechEnded(p, seqNo), chunks) && SpeechEnded(p, seqNo).ended == p.ended
  {
    if Runs(p, seqNo, Speaking) {
      FinishKeeps(p, chunks, true);
    }
  }

  lemma BrokenSaid(p: Player, chunks: seq<string>)
    requires Orderly(p, chunks) && Waiting(p) && p.playing && Runs(p, p.nextSeq, Sounding)
    ensures
      var q := p.(broken := p.broken + {p.nextSeq});
      var clip := p.playbacks[p.nextSeq].clip;
      Orderly(q, chunks) && (clip.text == "" || Instant(p, clip) ==> Unheard(q, p.nextSeq))
  {
    var q := p.(broken := p.broken + {p.nextSeq});
    assert forall i :: i in p.playbacks && i != p.nextSeq ==> (Unheard(q, i) <==> Unheard(p, i));
  }

  lemma FallbackKeeps(p: Player, chunks: seq<string>)
    requires Orderly(p, chunks) && Waiting(p) && p.playing && Runs(p, p.nextSeq, Sounding)
    requires p.playbacks[p.nextSeq].clip.text != "" && !Instant(p, p.playbacks[p.nextSeq].clip)
    ensures Sound(p, MediaFailed(p, p.nextSeq), chunks)
  {
    var n, q := p.nextSeq, MediaFailed(p, p.nextSeq);
    assert forall i :: i in p.playbacks && i != n ==> q.playbacks[i] == p.playbacks[i] && (Unheard(q, i) <==> Unheard(p, i));
  }

  lemma FailingKeeps(p: Player, seqNo: nat, chunks: seq<string>)
    requires Orderly(p, chunks) && Waiting(p)
    ensures Sound(p, MediaFailed(p, seqNo), chunks) && MediaFailed(p, seqNo).ended == p.ended
  {
    if Runs(p, seqNo, Sounding) {
      BrokenSaid(p, chunks);
      if p.playbacks[seqNo].clip.text != "" && !Instant(p, p.playbacks[seqNo].clip) {
        FallbackKeeps(p, chunks);
      } else {
        FinishKeeps(p.(broken := p.broken + {seqNo}), chunks, false);
      }
    }
  }

  lemma CallbackKeeps(p: Player, seqNo: nat, chunks: seq<string>)
    requires Orderly(p, chunks) && Waiting(p)
    ensures Sound(p, MediaEnded(p, seqNo), chunks)
    ensures Sound(p, MediaFailed(p, seqNo), chunks)
    ensures Sound(p, SpeechEnded(p, seqNo), chunks)
    ensures MediaEnded(p, seqNo).ended == MediaFailed(p, seqNo).ended == SpeechEnded(p, seqNo).ended == p.ended
  {
    EndingKeeps(p, seqNo, chunks);
    SpokenKeeps(p, seqNo, chunks);
    FailingKeeps(p, seqNo, chunks);
  }

  // ------------------------------------------------------------------
  // The server's side
  // ------------------------------------------------------------------

  ghost predicate ServerInv(w: World) {
    && w.synthesising !! w.ready && w.synthesising !! w.published && w.ready !! w.published
    && (forall i :: i in w.synthesising || i in w.ready || i in w.published ==> i < |w.chunks|)
    && |w.synthesising| <= w.limit
    && w.failed !! w.synthesising && w.failed !! w.ready
  }

  // One event per published chunk, and the final event only after all of them.
  ghost predicate LogInv(w: World) {
    && (forall k :: 0 <= k < |w.log| ==> Genuine(w.log[k], w.chunks))
    && (forall k :: 0 <= k < |w.log| && w.log[k].Chunk? ==> w.log[k].seqNo in w.published)
    && (forall k, l :: 0 <= k < l < |w.log| && w.log[k].Chunk? && w.log[l].Chunk? ==> w.log[k].seqNo != w.log[l].seqNo)
    && (forall k :: 0 <= k < |w.log| && w.log[k].Completed? ==>
          k == |w.log| - 1 && w.failed == {} && forall i :: 0 <= i < |w.chunks| ==> i in w.published)
    && (forall i :: i in w.published ==> Published(w, i))
    && (w.player.ended ==> IsComplete(w))
  }

  ghost predicate Published(w: World, i: nat) {
    exists k :: 0 <= k < |w.log| && w.log[k].Chunk? && w.log[k].seqNo == i
  }

  ghost predicate ArrivedInv(w: World) {
    forall i :: i in w.arrived ==> i in w.published && Has(w.player, i)
  }

  ghost predicate Inv(w: World) {
    && ServerInv(w) && LogInv(w) && ArrivedInv(w)
    && Orderly(w.player, w.chunks) && Waiting(w.player)
  }

  predicate OfServer(s: Step) {
    s.Acquire? || s.Synthesised? || s.Publish? || s.Fail? || s.PublishCompleted?
  }

  lemma TasksKeepInv(w: World, w': World)
    requires Inv(w) && ServerInv(w') && (w'.failed == w.failed || !IsComplete(w))
    requires w' == w.(synthesising := w'.synthesising, ready := w'.ready, failed := w'.failed)
    ensures Inv(w')
  {
    forall i | i in w'.published
      ensures Published(w', i)
    {
      assert Published(w, i);
    }
  }

  lemma ServerStepKeepsInv(w: World, s: Step)
    requires Inv(w) && Enabled(w, s) && (s.Acquire? || s.Synthesised? || s.Fail?)
    ensures Inv(Next(w, s))
  {
    TasksKeepInv(w, Next(w, s));
  }

  lemma PublishKeepsInv(w: World, s: Step)
    requires Inv(w) && Enabled(w, s) && (s.Publish? || s.PublishCompleted?)
    ensures Inv(Next(w, s))
  {
    if s.Publish? {
      PublishKeepsLog(w, Next(w, s), s.seqNo);
    } else {
      CompletedKeepsLog(w, Next(w, s));
    }
  }

  lemma PublishKeepsLog(w: World, w': World, i: nat)
    requires ServerInv(w) && LogInv(w) && i in w.ready
    requires w'.chunks == w.chunks && w'.failed == w.failed && w'.player == w.player && w'.published == w.published + {i}
    requires exists e :: w'.log == w.log + [e] && e.Chunk? && e.seqNo == i && Genuine(e, w.chunks)
    ensures LogInv(w')
  {
    assert !IsComplete(w);
    assert |w'.log| == |w.log| + 1 && w'.log[|w.log|].seqNo == i;
    forall j | j in w'.published
      ensures Published(w', j)
    {
      if j in w.published {
        assert Published(w, j);
        var k :| 0 <= k < |w.log| && w.log[k].Chunk? && w.log[k].seqNo == j;
        assert w'.log[k] == w.log[k];
      }
    }
  }

  lemma CompletedKeepsLog(w: World, w': World)
    requires LogInv(w) && Enabled(w, PublishCompleted) && w' == w.(log := w.log + [Completed(NONCE, |w.chunks|)])
    ensures LogInv(w')
  {
    forall j | j in w'.published
      ensures Published(w', j)
    {
      assert Published(w, j);
      var k :| 0 <= k < |w.log| && w.log[k].Chunk? && w.log[k].seqNo == j;
      assert w'.log[k] == w.log[k];
    }
  }

  lemma PlayerChangeKeepsInv(w: World, q: Player, arrived: set<nat>)
    requires Inv(w) && Sound(w.player, q, w.chunks)
    requires forall i :: i in arrived ==> i in w.arrived || (i in w.published && Has(q, i))
    requires q.ended ==> IsComplete(w)
    ensures Inv(w.(player := q, arrived := arrived))
  {
    var w' := w.(player := q, arrived := arrived);
    assert forall i :: i in w.published ==> Published(w, i) ==> Published(w', i);
  }

  lemma DeliverKeepsInv(w: World, k: nat)
    requires Inv(w) && k < |w.log|
    ensures Inv(Next(w, Deliver(k))) && Keeps(w.player, Next(w, Deliver(k)).player)
  {
    EventIsSound(w, k);
    var q := Receive(w.player, w.log[k]);
    TakingKeepsInv(w, k, q);
    DeliverIs(w, k, q);
  }

  lemma DeliverIs(w: World, k: nat, q: Player)
    requires k < |w.log| && q == Receive(w.player, w.log[k])
    ensures Next(w, Deliver(k)) ==
              w.(player := q, arrived := if w.log[k].Chunk? then w.arrived + {w.log[k].seqNo} else w.arrived)
  {
  }

  lemma TakingKeepsInv(w: World, k: nat, q: Player)
    requires Inv(w) && k < |w.log| && Sound(w.player, q, w.chunks) && (q.ended ==> IsComplete(w))
    requires w.log[k].Chunk? ==> w.log[k].seqNo in w.published && Has(q, w.log[k].seqNo)
    ensures Inv(w.(player := q, arrived := if w.log[k].Chunk? then w.arrived + {w.log[k].seqNo} else w.arrived))
  {
    PlayerChangeKeepsInv(w, q, if w.log[k].Chunk? then w.arrived + {w.log[k].seqNo} else w.arrived);
  }

  lemma EventIsSound(w: World, k: nat)
    requires Inv(w) && k < |w.log|
    ensures Sound(w.player, Receive(w.player, w.log[k]), w.chunks)
    ensures w.log[k].Chunk? ==> w.log[k].seqNo in w.published && Has(Receive(w.player, w.log[k]), w.log[k].seqNo)
    ensures Receive(w.player, w.log[k]).ended ==> IsComplete(w)
  {
    ReceiveKeeps(w.player, w.log[k], w.chunks);
  }

  // A foreign event or a callback.
  lemma PlayerAloneIsSound(w: World, s: Step)
    requires Inv(w) && Enabled(w, s) && !OfServer(s) && !s.Deliver?
    ensures Sound(w.player, Next(w, s).player, w.chunks) && Next(w, s).player.ended == w.player.ended
    ensures Next(w, s) == w.(player := Next(w, s).player)
  {
    match s
    case Foreign(e) => ReceiveKeeps(w.player, e, w.chunks);
    case OnEnded(i) => CallbackKeeps(w.player, i, w.chunks);
    case OnFailed(i) => CallbackKeeps(w.player, i, w.chunks);
    case OnSpoken(i) => CallbackKeeps(w.player, i, w.chunks);
  }

  lemma PlayerStepKeepsInv(w: World, s: Step)
    requires Inv(w) && Enabled(w, s) && !OfServer(s)
    ensures Inv(Next(w, s)) && Keeps(w.player, Next(w, s).player)
  {
    if s.Deliver? {
      DeliverKeepsInv(w, s.k);
    } else {
      PlayerAloneIsSound(w, s);
      PlayerChangeKeepsInv(w, Next(w, s).player, w.arrived);
    }
  }

  lemma NextKeepsInv(w: World, s: Step)
    requires Inv(w) && Enabled(w, s)
    ensures Inv(Next(w, s)) && Next(w, s).chunks == w.chunks && Next(w, s).limit == w.limit
    ensures w.log <= Next(w, s).log
  {
    if s.Acquire? || s.Synthesised? || s.Fail? {
      ServerStepKeepsInv(w, s);
    } else if s.Publish? || s.PublishCompleted? {
      PublishKeepsInv(w, s);
    } else {
      PlayerStepKeepsInv(w, s);
    }
  }

  // ------------------------------------------------------------------
  // Every run
  // ------------------------------------------------------------------

  ghost predicate IsRun(ws: seq<World>, ss: seq<Step>, chunks: seq<string>) {
    && |ws| == |ss| + 1 && ws[0] == Announced(chunks, ws[0].limit, ws[0].player.canSpeak)
    && forall i :: 0 <= i < |ss| ==> Enabled(ws[i], ss[i]) && ws[i + 1] == Next(ws[i], ss[i])
  }

  lemma {:induction false} RunInv(ws: seq<World>, ss: seq<Step>, chunks: seq<string>, i: nat)
    requires IsRun(ws, ss, chunks) && i < |ws|
    ensures Inv(ws[i]) && ws[i].chunks == chunks
  {
    if i > 0 {
      RunInv(ws, ss, chunks, i - 1);
      NextKeepsInv(ws[i - 1], ss[i - 1]);
    }
  }

  // The server publishes each chunk at most once, and the final event only after every chunk and nothing after it;
  // it never synthesises more chunks at a time than the semaphore allows.
  lemma PublishedOnceAndEndsLast(ws: seq<World>, ss: seq<Step>, chunks: seq<string>, i: nat)
    requires IsRun(ws, ss, chunks) && i < |ws|
    ensures LogInv(ws[i]) && |ws[i].synthesising| <= ws[i].limit
  {
    RunInv(ws, ss, chunks, i);
  }

  ghost predicate OneAtATime(p: Player) {
    forall a, b :: a in p.playbacks && b in p.playbacks && p.playbacks[a].stage != Done && p.playbacks[b].stage != Done ==>
      a == b
  }

  ghost predicate AllDone(p: Player) {
    forall a :: a in p.playbacks ==> p.playbacks[a].stage == Done
  }

  lemma HeardOnlyGrows(w: World, s: Step)
    requires Inv(w) && Enabled(w, s)
    ensures w.player.heard <= Next(w, s).player.heard
  {
    if !OfServer(s) {
      PlayerStepKeepsInv(w, s);
    }
  }

  lemma {:induction false} HeardGrows(ws: seq<World>, ss: seq<Step>, chunks: seq<string>, i: nat, j: nat)
    requires IsRun(ws, ss, chunks) && i <= j < |ws|
    ensures ws[i].player.heard <= ws[j].player.heard
    decreases j
  {
    if i < j {
      HeardGrows(ws, ss, chunks, i, j - 1);
      RunInv(ws, ss, chunks, j - 1);
      HeardOnlyGrows(ws[j - 1], ss[j - 1]);
    }
  }

  // A running playback is heard from its audio, unless that has failed, and otherwise from the browser's voice.
  ghost predicate AudioFirst(p: Player) {
    forall i :: i in p.playbacks && p.playbacks[i].stage != Done ==>
      (p.playbacks[i].stage == Sounding <==> p.playbacks[i].clip.audio && i !in p.broken)
  }

  // Chunks start in order, each once and one at a time, and none is taken back or started again.
  lemma PlaysInOrder(ws: seq<World>, ss: seq<Step>, chunks: seq<string>, i: nat, j: nat)
    requires IsRun(ws, ss, chunks) && i <= j < |ws|
    ensures ws[i].player.heard <= ws[j].player.heard <= chunks
    ensures OneAtATime(ws[j].player) && AudioFirst(ws[j].player)
  {
    HeardGrows(ws, ss, chunks, i, j);
    RunInv(ws, ss, chunks, j);
  }

  // The turn has been finished exactly when the final event arrived, every chunk was started and every playback
  // reported its end. Once every chunk has arrived, only the playbacks are waited for.
  lemma TurnFinishesIff(ws: seq<World>, ss: seq<Step>, chunks: seq<string>, i: nat)
    requires IsRun(ws, ss, chunks) && i < |ws|
    ensures
      var p := ws[i].player;
      && (p.turns > 0 <==> p.ended && p.heard == chunks && AllDone(p))
      && ((forall c :: 0 <= c < |chunks| ==> c in ws[i].arrived) && AllDone(p) ==> p.heard == chunks)
  {
    RunInv(ws, ss, chunks, i);
    var w, p := ws[i], ws[i].player;
    assert p.playing ==> p.nextSeq in p.playbacks;
    assert AllDone(p) <==> !p.playing;
    if AllDone(p) && p.nextSeq < |chunks| {
      assert !Has(p, p.nextSeq);
    }
  }

  // A reply whose events have all arrived is never stuck: while the turn is open one playback is running, and the
  // report of its end moves the player on.
  lemma NeverStuck(w: World)
    requires Inv(w) && w.player.ended && w.player.turns == 0
    requires forall c :: 0 <= c < |w.chunks| ==> c in w.arrived
    ensures
      var p := w.player;
      && p.playing && p.nextSeq in p.playbacks && p.playbacks[p.nextSeq].stage != Done
      && (Runs(p, p.nextSeq, Sounding) ==> MediaEnded(p, p.nextSeq).nextSeq > p.nextSeq)
      && (Runs(p, p.nextSeq, Speaking) ==> SpeechEnded(p, p.nextSeq).nextSeq > p.nextSeq)
  {
    var p := w.player;
    assert p.nextSeq < |w.chunks| ==> Has(p, p.nextSeq);
    assert p.playing ==> p.nextSeq in p.playbacks;
    FinishKeeps(p, w.chunks, true);
  }

  // ------------------------------------------------------------------
  // Failures, and how a reply can still end
  // ------------------------------------------------------------------

  lemma {:induction false} FailuresStay(ws: seq<World>, ss: seq<Step>, chunks: seq<string>, i: nat, j: nat)
    requires IsRun(ws, ss, chunks) && i <= j < |ws|
    ensures ws[i].failed <= ws[j].failed
    decreases j
  {
    if i < j {
      FailuresStay(ws, ss, chunks, i, j - 1);
      assert ws[j] == Next(ws[j - 1], ss[j - 1]);
    }
  }

  // Once a task has raised, the final event is never sent and the player never finishes the turn.
  lemma FailureLeavesTurnOpen(ws: seq<World>, ss: seq<Step>, chunks: seq<string>, i: nat, j: nat)
    requires IsRun(ws, ss, chunks) && i <= j < |ws| && ws[i].failed != {}
    ensures !IsComplete(ws[j]) && ws[j].player.turns == 0
  {
    FailuresStay(ws, ss, chunks, i, j);
    RunInv(ws, ss, chunks, j);
  }

  ghost predicate Leads(w: World, ss: seq<Step>, w': World)
    decreases |ss|
  {
    if ss == [] then w == w' else Enabled(w, ss[0]) && Leads(Next(w, ss[0]), ss[1..], w')
  }

  lemma LeadsFrom(w: World, s: Step, ss: seq<Step>, w': World)
    requires Enabled(w, s) && Leads(Next(w, s), ss, w')
    ensures Leads(w, [s] + ss, w')
  {
    assert ([s] + ss)[1..] == ss;
  }

  lemma {:induction false} LeadsJoin(w: World, ss: seq<Step>, v: World, ts: seq<Step>, w': World)
    requires Leads(w, ss, v) && Leads(v, ts, w')
    ensures Leads(w, ss + ts, w')
    decreases |ss|
  {
    if ss == [] {
      assert ss + ts == ts;
    } else {
      assert (ss + ts)[0] == ss[0] && (ss + ts)[1..] == ss[1..] + ts;
      LeadsJoin(Next(w, ss[0]), ss[1..], v, ts, w');
    }
  }

  lemma {:induction false} LeadsKeeps(w: World, ss: seq<Step>, w': World)
    requires Inv(w) && Leads(w, ss, w')
    ensures Inv(w') && w.failed <= w'.failed && w'.chunks == w.chunks && w'.limit == w.limit
    decreases |ss|
  {
    if ss != [] {
      NextKeepsInv(w, ss[0]);
      assert w.failed <= Next(w, ss[0]).failed;
      LeadsKeeps(Next(w, ss[0]), ss[1..], w');
    }
  }

  function Below(n: nat): (numbers: set<nat>)
    ensures forall i :: i in numbers <==> 0 <= i < n
  {
    if n == 0 then {} else Below(n - 1) + {n - 1}
  }

  function Unpublished(w: World): set<nat> {
    Below(|w.chunks|) - w.published
  }

  // The next step of the server's tasks when nothing fails.
  lemma ServerGoesOn(w: World) returns (s: Step)
    requires Inv(w) && w.failed == {} && w.limit > 0 && !IsComplete(w)
    ensures Enabled(w, s) && Next(w, s).failed == {} && Next(w, s).player == w.player
    ensures
      var w' := Next(w, s);
      || IsComplete(w')
      || (exists i :: i in Unpublished(w) && Unpublished(w') == Unpublished(w) - {i})
      || (Unpublished(w') == Unpublished(w)
          && exists i :: i in Unpublished(w) - w.ready && Unpublished(w') - w'.ready == Unpublished(w) - w.ready - {i})
      || (Unpublished(w') == Unpublished(w) && w'.ready == w.ready
          && exists i :: i in Unpublished(w) - w.ready - w.synthesising
               && Unpublished(w') - w'.ready - w'.synthesising == Unpublished(w) - w.ready - w.synthesising - {i})
  {
    if i :| i in w.ready {
      s := Publish(i, true, false);
      assert i in Unpublished(w) && Unpublished(Next(w, s)) == Unpublished(w) - {i};
    } else if i :| i in w.synthesising {
      s := Synthesised(i);
      assert i in Unpublished(w) - w.ready;
      assert Unpublished(Next(w, s)) - Next(w, s).ready == Unpublished(w) - w.ready - {i};
    } else if i :| 0 <= i < |w.chunks| && i !in w.published {
      assert w.synthesising == {};
      s := Acquire(i);
      assert i in Unpublished(w) - w.ready - w.synthesising;
      assert Unpublished(Next(w, s)) - w.ready - Next(w, s).synthesising == Unpublished(w) - w.ready - w.synthesising - {i};
    } else {
      s := PublishCompleted;
    }
  }

  lemma {:induction false} Completes(w: World) returns (ss: seq<Step>, w': World)
    requires Inv(w) && w.failed == {} && w.limit > 0
    ensures Leads(w, ss, w') && IsComplete(w') && w'.player == w.player
    decreases |Unpublished(w)|, |Unpublished(w) - w.ready|, |Unpublished(w) - w.ready - w.synthesising|
  {
    if IsComplete(w) {
      ss, w' := [], w;
    } else {
      var s := ServerGoesOn(w);
      var rest;
      NextKeepsInv(w, s);
      if IsComplete(Next(w, s)) {
        rest, w' := [], Next(w, s);
      } else {
        rest, w' := Completes(Next(w, s));
      }
      ss := [s] + rest;
      LeadsFrom(w, s, rest, w');
    }
  }

  // Everything published from the k-th event on has been delivered.
  ghost predicate Delivery(w: World, k: nat, w': World) {
    && w'.log == w.log && w'.published == w.published && w'.failed == w.failed
    && w.arrived <= w'.arrived && (w.player.ended ==> w'.player.ended) && w'.player.spoken == w.player.spoken
    && (forall l :: k <= l < |w.log| && w.log[l].Chunk? ==> w.log[l].seqNo in w'.arrived)
    && (forall l :: k <= l < |w.log| && w.log[l].Completed? ==> w'.player.ended)
  }

  // The k-th event has been delivered.
  ghost predicate TookIn(w: World, k: nat, v: World)
    requires k < |w.log|
  {
    && v.log == w.log && v.published == w.published && v.failed == w.failed && w.arrived <= v.arrived
    && (w.log[k].Chunk? ==> w.log[k].seqNo in v.arrived)
    && (v.player.ended <==> w.player.ended || w.log[k].Completed?) && v.player.spoken == w.player.spoken
  }

  lemma DeliveryFrom(w: World, k: nat, v: World, w': World)
    requires k < |w.log| && TookIn(w, k, v) && Delivery(v, k + 1, w')
    ensures Delivery(w, k, w')
  {
  }

  lemma {:induction false} Delivers(w: World, k: nat) returns (ss: seq<Step>, w': World)
    requires Inv(w) && k <= |w.log|
    ensures Leads(w, ss, w') && Delivery(w, k, w')
    decreases |w.log| - k
  {
    if k == |w.log| {
      ss, w' := [], w;
    } else {
      Delivered(w, k);
      var rest;
      rest, w' := Delivers(Next(w, Deliver(k)), k + 1);
      ss := [Deliver(k)] + rest;
      LeadsFrom(w, Deliver(k), rest, w');
      DeliveryFrom(w, k, Next(w, Deliver(k)), w');
    }
  }

  lemma Delivered(w: World, k: nat)
    requires Inv(w) && k < |w.log|
    ensures Inv(Next(w, Deliver(k))) && TookIn(w, k, Next(w, Deliver(k)))
  {
    DeliverKeepsInv(w, k);
    Takes(w, k);
  }

  lemma Takes(w: World, k: nat)
    requires Inv(w) && k < |w.log|
    ensures TookIn(w, k, Next(w, Deliver(k)))
  {
    ReceivedTells(w.player, w.log[k], w.chunks);
  }

  lemma ReceivedTells(p: Player, e: Event, chunks: seq<string>)
    requires Orderly(p, chunks) && Waiting(p) && Genuine(e, chunks)
    ensures Receive(p, e).spoken == p.spoken && (Receive(p, e).ended <==> p.ended || e.Completed?)
  {
    ReceiveKeeps(p, e, chunks);
  }

  lemma {:induction false} Plays(w: World) returns (ss: seq<Step>, w': World)
    requires Inv(w) && w.player.ended && forall c :: 0 <= c < |w.chunks| ==> c in w.arrived
    ensures Leads(w, ss, w') && w'.player.turns > 0
    decreases |w.chunks| - w.player.nextSeq
  {
    if w.player.turns > 0 {
      ss, w' := [], w;
    } else {
      NeverStuck(w);
      var i := w.player.nextSeq;
      var s := if Runs(w.player, i, Sounding) then OnEnded(i) else OnSpoken(i);
      CallbackKeeps(w.player, i, w.chunks);
      PlayerStepKeepsInv(w, s);
      var rest;
      rest, w' := Plays(Next(w, s));
      ss := [s] + rest;
      LeadsFrom(w, s, rest, w');
    }
  }

  lemma AllArrives(w: World) returns (ss: seq<Step>, w': World)
    requires Inv(w) && IsComplete(w)
    ensures Leads(w, ss, w') && Inv(w') && w'.player.ended && forall c :: 0 <= c < |w'.chunks| ==> c in w'.arrived
    ensures w'.player.spoken == w.player.spoken
  {
    ss, w' := Delivers(w, 0);
    LeadsKeeps(w, ss, w');
    assert w.log[|w.log| - 1].Completed?;
    forall c | 0 <= c < |w.chunks|
      ensures c in w'.arrived
    {
      assert Published(w, c);
    }
  }

  ghost predicate CanFinish(w: World) {
    exists ss: seq<Step>, w': World :: Leads(w, ss, w') && w'.player.turns > 0
  }

  lemma Finishes(w: World) returns (ss: seq<Step>, w': World)
    requires Inv(w) && w.failed == {} && w.limit > 0
    ensures Leads(w, ss, w') && w'.player.turns > 0
  {
    var s1, w1 := Completes(w);
    LeadsKeeps(w, s1, w1);
    var s2, w2 := AllArrives(w1);
    var s3, w3 := Plays(w2);
    LeadsJoin(w1, s2, w2, s3, w3);
    LeadsJoin(w, s1, w1, s2 + s3, w3);
    ss, w' := s1 + (s2 + s3), w3;
  }

  // At every point of every run, the turn is finished already or can still be finished if and only if no task has
  // raised.
  lemma CanFinishIff(ws: seq<World>, ss: seq<Step>, chunks: seq<string>, i: nat)
    requires IsRun(ws, ss, chunks) && i < |ws| && ws[i].limit > 0
    ensures CanFinish(ws[i]) <==> ws[i].failed == {}
  {
    RunInv(ws, ss, chunks, i);
    if ws[i].failed == {} {
      var rest, w' := Finishes(ws[i]);
    } else if CanFinish(ws[i]) {
      var rest: seq<Step>, w': World :| Leads(ws[i], rest, w') && w'.player.turns > 0;
      LeadsKeeps(ws[i], rest, w');
    }
  }

  // ------------------------------------------------------------------
  // What is really said
  // ------------------------------------------------------------------

  // A failed audio is spoken by the browser if and only if it can say the text; then nothing else moves.
  lemma FallbackSpeaksIff(p: Player, i: nat, chunks: seq<string>)
    requires Orderly(p, chunks) && Waiting(p) && Runs(p, i, Sounding)
    ensures
      var q := MediaFailed(p, i);
      var can := p.playbacks[i].clip.text != "" && p.canSpeak && !p.playbacks[i].clip.mute;
      && (Runs(q, i, Speaking) <==> can)
      && (can ==> q.nextSeq == p.nextSeq && q.playing && q.heard == p.heard && q.spoken == p.spoken
                  && q.skipped == p.skipped && q.turns == p.turns && q.playbacks.Keys == p.playbacks.Keys
                  && q.broken == p.broken + {i})
      && (!can ==> i in q.skipped && q.nextSeq > p.nextSeq)
  {
    FailingKeeps(p, i, chunks);
    if !(p.playbacks[i].clip.text != "" && p.canSpeak && !p.playbacks[i].clip.mute) {
      var q := p.(broken := p.broken + {i});
      BrokenSaid(p, chunks);
      FinishKeeps(q, chunks, false);
      SkippedGrows(q, chunks, false);
    }
  }

  // What has ended stays ended, and what was said or passed over stays so.
  ghost predicate Settled(p: Player, q: Player) {
    && p.skipped <= q.skipped && p.spoken <= q.spoken
    && forall i :: i in p.playbacks && p.playbacks[i].stage == Done ==> i in q.playbacks && q.playbacks[i] == p.playbacks[i]
  }

  lemma SettledOn(p: Player, q: Player, r: Player)
    requires Settled(p, q) && Settled(q, r)
    ensures Settled(p, r)
  {
  }

  lemma {:induction false} SkippedStays(p: Player, chunks: seq<string>)
    requires Orderly(p, chunks)
    ensures Settled(p, PlayNext(p))
    decreases |p.buffer|, 0
  {
    if !p.playing && p.nextSeq in p.buffer {
      var clip := p.buffer[p.nextSeq];
      var q := Start(p, clip);
      StartKeeps(p, chunks);
      StartSaid(p, chunks);
      assert q.buffer.Keys == p.buffer.Keys - {p.nextSeq};
      assert Settled(p, q);
      if !clip.audio && Instant(p, clip) {
        SkippedGrows(q, chunks, false);
        SettledOn(p, q, ChunkFinished(q, q.nextSeq, false));
      }
    }
  }

  lemma {:induction false} SkippedGrows(p: Player, chunks: seq<string>, said: bool)
    requires Orderly(p, chunks) && p.playing && (said <==> !Unheard(p, p.nextSeq))
    ensures
      var q := ChunkFinished(p, p.nextSeq, said);
      && Settled(p, q) && (!said ==> p.nextSeq in q.skipped)
      && p.nextSeq in q.playbacks && q.playbacks[p.nextSeq].stage == Done
    decreases |p.buffer|, 1
  {
    var r := Retire(p, p.nextSeq, said);
    RetireKeeps(p, chunks, said);
    SkippedStays(r, chunks);
    SettledOn(p, r, ChunkFinished(p, p.nextSeq, said));
  }

  // The clip waits in its place, or has been started.
  ghost predicate HasClip(p: Player, i: nat, clip: Clip) {
    (i in p.buffer && p.buffer[i] == clip) || (i in p.playbacks && p.playbacks[i].clip == clip)
  }

  lemma {:induction false} ClipKept(p: Player, chunks: seq<string>, i: nat, clip: Clip)
    requires Orderly(p, chunks) && i in p.buffer && p.buffer[i] == clip
    ensures HasClip(PlayNext(p), i, clip)
    decreases |p.buffer|, 1
  {
    if !p.playing && p.nextSeq in p.buffer {
      var first := p.buffer[p.nextSeq];
      var q := Start(p, first);
      assert q.buffer.Keys == p.buffer.Keys - {p.nextSeq};
      if !first.audio && Instant(p, first) {
        StartKeeps(p, chunks);
        StartSaid(p, chunks);
        ClipKeptOn(p, q, chunks, i, clip);
      }
    }
  }

  lemma {:induction false} ClipKeptOn(p: Player, q: Player, chunks: seq<string>, i: nat, clip: Clip)
    requires Orderly(q, chunks) && q.playing && Unheard(q, q.nextSeq) && |q.buffer| < |p.buffer|
    requires if i == q.nextSeq then q.playbacks[i].clip == clip else i in q.buffer && q.buffer[i] == clip
    ensures HasClip(ChunkFinished(q, q.nextSeq, false), i, clip)
    decreases |p.buffer|, 0
  {
    var r := Retire(q, q.nextSeq, false);
    RetireKeeps(q, chunks, false);
    if i == q.nextSeq {
      SkippedStays(r, chunks);
    } else {
      ClipKept(r, chunks, i, clip);
    }
  }

  lemma ReceivedClip(p: Player, e: Event, chunks: seq<string>)
    requires Orderly(p, chunks) && Genuine(e, chunks) && e.Chunk?
    ensures HasClip(Receive(p, e), e.seqNo, e.clip)
  {
    BufferKeeps(p, e, chunks);
    ClipKept(p.(buffer := p.buffer[e.seqNo := e.clip]), chunks, e.seqNo, e.clip);
  }

  // How a playback that was running comes to its end: its audio ended, its audio failed and cannot be spoken, or its
  // speech ended.
  lemma EndsOnlyBy(w: World, s: Step, i: nat)
    requires Inv(w) && Enabled(w, s) && i in w.player.playbacks && w.player.playbacks[i].stage != Done
    ensures i in Next(w, s).player.playbacks
    ensures
      var clip := w.player.playbacks[i].clip;
      Next(w, s).player.playbacks[i].stage == Done <==>
        || (s == OnEnded(i) && w.player.playbacks[i].stage == Sounding)
        || (s == OnSpoken(i) && w.player.playbacks[i].stage == Speaking)
        || (s == OnFailed(i) && w.player.playbacks[i].stage == Sounding
            && (clip.text == "" || !w.player.canSpeak || clip.mute))
  {
    var p := w.player;
    match s
    case OnEnded(j) => if Runs(p, j, Sounding) { SkippedGrows(p, w.chunks, true); }
    case OnSpoken(j) => if Runs(p, j, Speaking) { SkippedGrows(p, w.chunks, true); }
    case OnFailed(j) => FailedEnds(p, j, w.chunks);
    case Deliver(k) => assert p.playing;
    case Foreign(e) => assert p.playing;
    case _ =>
  }

  lemma FailedEnds(p: Player, j: nat, chunks: seq<string>)
    requires Orderly(p, chunks) && Waiting(p)
    ensures
      Runs(p, j, Sounding) && (p.playbacks[j].clip.text == "" || !p.canSpeak || p.playbacks[j].clip.mute) ==>
        j in MediaFailed(p, j).playbacks && MediaFailed(p, j).playbacks[j].stage == Done
  {
    if Runs(p, j, Sounding) && (p.playbacks[j].clip.text == "" || !p.canSpeak || p.playbacks[j].clip.mute) {
      BrokenSaid(p, chunks);
      SkippedGrows(p.(broken := p.broken + {j}), chunks, false);
    }
  }

  lemma {:induction false} KeptAll(chunks: seq<string>, skipped: set<nat>, n: nat)
    requires n <= |chunks| && skipped == {}
    ensures Kept(chunks, skipped, n) == chunks[..n]
  {
    if n > 0 {
      KeptAll(chunks, skipped, n - 1);
      assert chunks[..n] == chunks[..n - 1] + [chunks[n - 1]];
    }
  }

  // Every chunk passed over is a loss of words.
  lemma {:induction false} KeptWords(chunks: seq<string>, skipped: set<nat>, n: nat)
    requires n <= |chunks| && forall c :: c in chunks ==> SpeechText.Words(c) != []
    ensures |SpeechText.WordsAll(Kept(chunks, skipped, n))| <= |SpeechText.WordsAll(chunks[..n])|
    ensures (exists i :: 0 <= i < n && i in skipped) ==>
              |SpeechText.WordsAll(Kept(chunks, skipped, n))| < |SpeechText.WordsAll(chunks[..n])|
  {
    if n > 0 {
      var c := chunks[n - 1];
      KeptWords(chunks, skipped, n - 1);
      assert chunks[..n] == chunks[..n - 1] + [c];
      SpeechText.WordsAllJoin(chunks[..n - 1], [c]);
      SpeechText.WordsOfOne(c);
      assert c in chunks;
      if n - 1 in skipped {
        assert Kept(chunks, skipped, n) == Kept(chunks, skipped, n - 1);
      } else {
        SpeechText.WordsAllJoin(Kept(chunks, skipped, n - 1), [c]);
      }
    }
  }

  // When the turn of a reply is finished, what was said is the chunks that were not passed over, in order.
  lemma FinishedSaid(ws: seq<World>, ss: seq<Step>, chunks: seq<string>, i: nat)
    requires IsRun(ws, ss, chunks) && i < |ws| && ws[i].player.turns > 0
    ensures
      var p := ws[i].player;
      && p.spoken == Kept(chunks, p.skipped, |chunks|)
      && (forall c :: c in p.skipped <==> c in p.playbacks && Unheard(p, c))
      && (forall c :: c in p.playbacks <==> 0 <= c < |chunks|)
  {
    RunInv(ws, ss, chunks, i);
  }

  // From reply to speaker: when the turn of a reply is finished, all its words were said, in order, if and only if it has
  // at most eight chunks and none of them was passed over.
  lemma WholeReplyIsSpokenIff(ws: seq<World>, ss: seq<Step>, raw: string, maxChars: nat, i: nat)
    requires maxChars >= 1
    requires IsRun(ws, ss, SpeechText.SpokenChunks(SpeechText.CleanSpokenText(raw), maxChars)) && i < |ws|
    requires ws[i].player.turns > 0
    ensures
      var text, p := SpeechText.CleanSpokenText(raw), ws[i].player;
      SpeechText.WordsAll(p.spoken) == SpeechText.AllPieces(SpeechText.Words(text), maxChars) <==>
      && |SpeechText.AllChunks(SpeechText.ToSpeak(text), maxChars)| <= SpeechText.MAX_CHUNKS
      && forall c :: c in p.playbacks ==> !Unheard(p, c)
  {
    var text, p := SpeechText.CleanSpokenText(raw), ws[i].player;
    var chunks := SpeechText.SpokenChunks(text, maxChars);
    FinishedSaid(ws, ss, chunks, i);
    SaidIsWhole(raw, maxChars, p.skipped);
    assert p.skipped == {} <==> forall c :: c in p.playbacks ==> !Unheard(p, c);
    assert forall c :: c in p.skipped ==> 0 <= c < |chunks|;
  }

  lemma SaidIsWhole(raw: string, maxChars: nat, skipped: set<nat>)
    requires maxChars >= 1
    requires forall i :: i in skipped ==> 0 <= i < |SpeechText.SpokenChunks(SpeechText.CleanSpokenText(raw), maxChars)|
    ensures
      var text := SpeechText.CleanSpokenText(raw);
      var chunks := SpeechText.SpokenChunks(text, maxChars);
      SpeechText.WordsAll(Kept(chunks, skipped, |chunks|)) == SpeechText.AllPieces(SpeechText.Words(text), maxChars) <==>
      |SpeechText.AllChunks(SpeechText.ToSpeak(text), maxChars)| <= SpeechText.MAX_CHUNKS && skipped == {}
  {
    var chunks := SpeechText.SpokenChunks(SpeechText.CleanSpokenText(raw), maxChars);
    SpeechText.WholeReplyIff(raw, maxChars);
    SpeechText.SpokenWordsFit(raw, maxChars);
    assert chunks[..|chunks|] == chunks;
    if skipped == {} {
      KeptAll(chunks, skipped, |chunks|);
    } else {
      var i :| i in skipped;
      KeptWords(chunks, skipped, |chunks|);
    }
  }

  // A reply with more to say than eight chunks hold is finished without all of its words.
  lemma LongReplyIsCutShort(raw: string, maxChars: nat, limit: nat, canSpeak: bool) returns (ss: seq<Step>, w': World)
    requires maxChars >= 1 && limit > 0 && |SpeechText.Heard(raw)| > SpeechText.MAX_CHUNKS * maxChars
    ensures
      var text := SpeechText.CleanSpokenText(raw);
      && Leads(Announced(SpeechText.SpokenChunks(text, maxChars), limit, canSpeak), ss, w') && w'.player.turns > 0
      && SpeechText.WordsAll(w'.player.spoken) != SpeechText.AllPieces(SpeechText.Words(text), maxChars)
  {
    var w := Announced(SpeechText.SpokenChunks(SpeechText.CleanSpokenText(raw), maxChars), limit, canSpeak);
    ss, w' := Finishes(w);
    LeadsKeeps(w, ss, w');
    FinishedKept(w');
    LongLosesWords(raw, maxChars, w'.player.skipped);
  }

  lemma FinishedKept(w: World)
    requires Inv(w) && w.player.turns > 0
    ensures w.player.spoken == Kept(w.chunks, w.player.skipped, |w.chunks|)
    ensures forall i :: i in w.player.skipped ==> 0 <= i < |w.chunks|
  {
  }

  lemma LongLosesWords(raw: string, maxChars: nat, skipped: set<nat>)
    requires maxChars >= 1 && |SpeechText.Heard(raw)| > SpeechText.MAX_CHUNKS * maxChars
    requires forall i :: i in skipped ==> 0 <= i < |SpeechText.SpokenChunks(SpeechText.CleanSpokenText(raw), maxChars)|
    ensures
      var text := SpeechText.CleanSpokenText(raw);
      var chunks := SpeechText.SpokenChunks(text, maxChars);
      SpeechText.WordsAll(Kept(chunks, skipped, |chunks|)) != SpeechText.AllPieces(SpeechText.Words(text), maxChars)
  {
    SpeechText.LongReplyHasManyChunks(raw, maxChars);
    SaidIsWhole(raw, maxChars, skipped);
  }

  lemma {:induction false} FailsThrough(w: World) returns (ss: seq<Step>, w': World)
    requires Inv(w) && w.player.ended && (forall c :: 0 <= c < |w.chunks| ==> c in w.arrived) && !w.player.canSpeak
    ensures Leads(w, ss, w') && w'.player.turns > 0 && w'.player.spoken == w.player.spoken
    decreases |w.chunks| - w.player.nextSeq
  {
    if w.player.turns > 0 {
      ss, w' := [], w;
    } else {
      NeverStuck(w);
      var s := OnFailed(w.player.nextSeq);
      FailingSaysNothing(w);
      PlayerStepKeepsInv(w, s);
      var rest;
      rest, w' := FailsThrough(Next(w, s));
      ss := [s] + rest;
      LeadsFrom(w, s, rest, w');
    }
  }

  // In a browser that cannot speak, a failing audio moves the player on without a word.
  lemma FailingSaysNothing(w: World)
    requires Inv(w) && w.player.playing && w.player.nextSeq in w.player.playbacks && !w.player.canSpeak
    requires w.player.playbacks[w.player.nextSeq].stage != Done
    ensures
      var q := MediaFailed(w.player, w.player.nextSeq);
      q.nextSeq > w.player.nextSeq && q.spoken == w.player.spoken && !q.canSpeak
  {
    var p, i := w.player, w.player.nextSeq;
    assert Runs(p, i, Sounding);
    var q := p.(broken := p.broken + {i});
    BrokenSaid(p, w.chunks);
    FinishKeeps(q, w.chunks, false);
    PlayNextKeepsVoice(Retire(q, i, false));
  }

  lemma {:induction false} PlayNextKeepsVoice(p: Player)
    ensures PlayNext(p).canSpeak == p.canSpeak
    decreases |p.buffer|
  {
    if !p.playing && p.nextSeq in p.buffer {
      var clip := p.buffer[p.nextSeq];
      var q := Start(p, clip);
      assert q.buffer.Keys == p.buffer.Keys - {p.nextSeq};
      if !clip.audio && Instant(p, clip) {
        PlayNextKeepsVoice(Retire(q, q.nextSeq, false));
      }
    }
  }

  // An input that goes unsaid: in a browser that cannot speak, every audio fails; the turn is finished without a word.
  lemma UnspokenReply(chunks: seq<string>, limit: nat) returns (ss: seq<Step>, w': World)
    requires limit > 0
    ensures Leads(Announced(chunks, limit, false), ss, w') && w'.player.turns > 0 && w'.player.spoken == []
  {
    var w := Announced(chunks, limit, false);
    var s1, w1 := Completes(w);
    LeadsKeeps(w, s1, w1);
    var s2, w2 := AllArrives(w1);
    LeadsKeepsVoice(w1, s2, w2);
    var s3, w3 := FailsThrough(w2);
    LeadsJoin(w1, s2, w2, s3, w3);
    LeadsJoin(w, s1, w1, s2 + s3, w3);
    ss, w' := s1 + (s2 + s3), w3;
  }

  lemma StepKeepsVoice(w: World, s: Step)
    requires Inv(w) && Enabled(w, s)
    ensures Next(w, s).player.canSpeak == w.player.canSpeak
  {
    var p := w.player;
    match s
    case Deliver(k) => ReceiveKeepsVoice(p, w.log[k]);
    case Foreign(e) => ReceiveKeepsVoice(p, e);
    case OnEnded(i) => PlayNextKeepsVoice(Retire(p, i, true));
    case OnSpoken(i) => PlayNextKeepsVoice(Retire(p, i, true));
    case OnFailed(i) => PlayNextKeepsVoice(Retire(p.(broken := p.broken + {i}), i, false));
    case _ =>
  }

  lemma ReceiveKeepsVoice(p: Player, e: Event)
    ensures Receive(p, e).canSpeak == p.canSpeak
  {
    if e.Chunk? {
      var q := if p.nonce.None? then ResetAudio(p, e.nonce, e.total) else p;
      PlayNextKeepsVoice(q.(total := Total(q, e.total), buffer := q.buffer[e.seqNo := e.clip]));
    } else {
      PlayNextKeepsVoice(p.(total := Total(p, e.total), ended := true));
    }
  }

  lemma {:induction false} LeadsKeepsVoice(w: World, ss: seq<Step>, w': World)
    requires Inv(w) && Leads(w, ss, w')
    ensures w'.player.canSpeak == w.player.canSpeak
    decreases |ss|
  {
    if ss != [] {
      NextKeepsInv(w, ss[0]);
      StepKeepsVoice(w, ss[0]);
      LeadsKeepsVoice(Next(w, ss[0]), ss[1..], w');
    }
  }

  // ------------------------------------------------------------------
  // The player as code
  // ------------------------------------------------------------------

  // A player between calls, in the middle of a reply of these chunks.
  ghost predicate Playing(p: Player, chunks: seq<string>) {
    Orderly(p, chunks) && Waiting(p)
  }

  // Nothing has been played.
  ghost predicate Fresh(p: Player) {
    p.playbacks == map[] && p.heard == [] && p.spoken == [] && p.skipped == {} && p.broken == {} && p.turns == 0
  }

  lemma FreshIsPlaying(p: Player, chunks: seq<string>)
    requires Fresh(p)
    ensures Playing(ResetAudio(p, NONCE, |chunks|), chunks)
  {
  }

  class AudioPlayer {
    const canSpeak: bool
    var nonce: Option<nat>
    var buffer: map<nat, Clip>
    var nextSeq: nat
    var total: nat
    var ended: bool
    var playing: bool
    var playbacks: map<nat, Playback>
    ghost var heard: seq<string>
    ghost var spoken: seq<string>
    ghost var skipped: set<nat>
    ghost var broken: set<nat>
    ghost var turns: nat

    ghost function State(): Player
      reads this
    {
      Player(canSpeak, nonce, buffer, nextSeq, total, ended, playing, playbacks, heard,
             spoken, skipped, broken, turns)
    }

    constructor (canSpeak: bool)
      ensures State() == Player(canSpeak, None, map[], 0, 0, false, false, map[], [], [], {}, {}, 0)
    {
      this.canSpeak := canSpeak;
      nonce, buffer, nextSeq, total, ended, playing := None, map[], 0, 0, false, false;
      playbacks, heard, turns := map[], [], 0;
      spoken, skipped, broken := [], {}, {};
    }

    // A player that has played nothing yet is ready for a reply of `chunks`.
    method Reset(newNonce: nat, newTotal: nat, ghost chunks: seq<string>)
      modifies this
      ensures State() == ResetAudio(old(State()), newNonce, newTotal)
      ensures Fresh(old(State())) && newNonce == NONCE && newTotal == |chunks| ==>
                Playing(State(), chunks)
    {
      if Fresh(State()) { FreshIsPlaying(State(), chunks); }
      playing := false;
      nonce := Some(newNonce);
      buffer := map[];
      nextSeq := 0;
      total := newTotal;
      ended := false;
    }

    // The statements of playNext.
    method Advance()
      modifies this
      ensures State() == PlayNext(old(State()))
      decreases |buffer|, 0
    {
      if playing {
        return;
      }
      if nextSeq !in buffer {
        if ended && nextSeq >= total {
          turns := turns + 1;
        }
        return;
      }
      var clip := buffer[nextSeq];
      ghost var before := buffer;
      buffer := buffer - {nextSeq};
      assert buffer.Keys == before.Keys - {nextSeq};
      playing := true;
      heard := heard + [clip.text];
      playbacks := playbacks[nextSeq := Playback(clip, if clip.audio then Sounding else Speaking)];
      if !clip.audio && (!canSpeak || clip.mute) {
        MoveOn(nextSeq, false);
      }
    }

    // The playback has ended.
    method Close(seqNo: nat, ghost said: bool)
      modifies this
      ensures State() == Retire(old(State()), seqNo, said)
    {
      if said && seqNo in playbacks { spoken := spoken + [playbacks[seqNo].clip.text]; }
      if !said { skipped := skipped + {seqNo}; }
      if seqNo in playbacks {
        playbacks := playbacks[seqNo := playbacks[seqNo].(stage := Done)];
      }
      playing := false;
      nextSeq := nextSeq + 1;
    }

    // The statements of chunkFinished.
    method MoveOn(seqNo: nat, ghost said: bool)
      modifies this
      ensures State() == ChunkFinished(old(State()), seqNo, said)
      decreases |buffer|, 1
    {
      ghost var p := State();
      Close(seqNo, said);
      assert State().buffer == p.buffer;
      Advance();
    }

    // Goes on as far as it can: what was heard stays a prefix of the chunks, and no turn is finished early.
    method Continue(ghost chunks: seq<string>)
      modifies this
      ensures State() == PlayNext(old(State()))
      ensures Orderly(old(State()), chunks) && (old(playing) ==> old(Audible(State()))) ==>
                Playing(State(), chunks) && Keeps(old(State()), State())
    {
      if Orderly(State(), chunks) && (playing ==> Audible(State())) { PlayNextKeeps(State(), chunks); }
      Advance();
    }

    // The playing chunk has ended: the next one in sequence is up.
    method Finished(seqNo: nat, ghost said: bool, ghost chunks: seq<string>)
      modifies this
      ensures State() == ChunkFinished(old(State()), seqNo, said)
      ensures Orderly(old(State()), chunks) && old(playing) && seqNo == old(nextSeq)
              && (said <==> !old(Unheard(State(), nextSeq))) ==>
                Playing(State(), chunks) && Keeps(old(State()), State()) && nextSeq > old(nextSeq)
    {
      if Orderly(State(), chunks) && playing && seqNo == nextSeq && (said <==> !Unheard(State(), nextSeq)) {
        FinishKeeps(State(), chunks, said);
      }
      MoveOn(seqNo, said);
    }

    // A chunk of the reply is heard in its turn, now or later; one of another reply changes nothing.
    method ReceiveChunk(e: Event, ghost chunks: seq<string>)
      requires e.Chunk?
      modifies this
      ensures State() == Receive(old(State()), e)
      ensures Playing(old(State()), chunks) && Genuine(e, chunks) ==>
                Sound(old(State()), State(), chunks) && HasClip(State(), e.seqNo, e.clip)
      ensures old(nonce).Some? && e.nonce != old(nonce).value ==> State() == old(State())
    {
      if Playing(State(), chunks) && Genuine(e, chunks) {
        ReceiveKeeps(State(), e, chunks);
        ReceivedClip(State(), e, chunks);
      }
      if nonce.Some? && e.nonce != nonce.value {
        return;
      }
      if nonce.None? {
        Reset(e.nonce, e.total, chunks);
      }
      total := if e.total != 0 then e.total else total;
      buffer := buffer[e.seqNo := e.clip];
      Continue(chunks);
    }

    // The end of the reply is noted; the turn is finished at once exactly if everything has been played.
    method FinishAudio(e: Event, ghost chunks: seq<string>)
      requires e.Completed?
      modifies this
      ensures State() == Receive(old(State()), e)
      ensures Playing(old(State()), chunks) && Genuine(e, chunks) ==>
                Sound(old(State()), State(), chunks) && ended
                && (turns > 0 <==> old(turns) > 0 || (!old(playing) && old(nextSeq) == |chunks|))
    {
      if Playing(State(), chunks) && Genuine(e, chunks) { ReceiveKeeps(State(), e, chunks); }
      if nonce.Some? && e.nonce != nonce.value {
        return;
      }
      total := if e.total != 0 then e.total else total;
      ended := true;
      Continue(chunks);
    }

    // The media element's end; `settled` is the stage of the playback. A report of a chunk that has ended already
    // changes nothing, and the first report moves on.
    method FinishOnce(seqNo: nat, ghost chunks: seq<string>)
      modifies this
      ensures State() == MediaEnded(old(State()), seqNo)
      ensures Playing(old(State()), chunks) ==> Sound(old(State()), State(), chunks)
      ensures Playing(old(State()), chunks) && seqNo < old(nextSeq) ==> State() == old(State())
      ensures Playing(old(State()), chunks) && Runs(old(State()), seqNo, Sounding) ==> nextSeq > old(nextSeq)
    {
      if Playing(State(), chunks) {
        CallbackKeeps(State(), seqNo, chunks);
      }
      if seqNo in playbacks && playbacks[seqNo].stage == Sounding {
        Finished(seqNo, true, chunks);
      }
    }

    // The statements of useFallback.
    method Fall(seqNo: nat)
      modifies this
      ensures State() == MediaFailed(old(State()), seqNo)
    {
      if seqNo !in playbacks || playbacks[seqNo].stage != Sounding {
        return;
      }
      var clip := playbacks[seqNo].clip;
      broken := broken + {seqNo};
      if clip.text != "" && canSpeak && !clip.mute {
        playbacks := playbacks[seqNo := Playback(clip, Speaking)];
      } else {
        MoveOn(seqNo, false);
      }
    }

    // A failed playback is spoken by the browser, if it can, and the player waits for that; otherwise it is passed over.
    method UseFallback(seqNo: nat, ghost chunks: seq<string>)
      modifies this
      ensures State() == MediaFailed(old(State()), seqNo)
      ensures Playing(old(State()), chunks) ==> Sound(old(State()), State(), chunks)
      ensures old(Runs(State(), seqNo, Sounding)) && old(playbacks)[seqNo].clip.text != ""
              && canSpeak && !old(playbacks)[seqNo].clip.mute ==>
                Runs(State(), seqNo, Speaking) && nextSeq == old(nextSeq) && playing == old(playing) && heard == old(heard)
                && spoken == old(spoken) && turns == old(turns)
      ensures Playing(old(State()), chunks) && old(Runs(State(), seqNo, Sounding)) && !Runs(State(), seqNo, Speaking) ==>
                nextSeq > old(nextSeq) && seqNo in skipped
    {
      ghost var p := State();
      if Playing(p, chunks) {
        FailingKeeps(p, seqNo, chunks);
        if Runs(p, seqNo, Sounding) { FallbackSpeaksIff(p, seqNo, chunks); }
      }
      Fall(seqNo);
    }
  }
}
