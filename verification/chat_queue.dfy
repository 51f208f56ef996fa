/**
 The single-flight chat queue: messages admitted one at a time per stay, worker tasks that may be
 delivered more than once, fail or die at any point, and an admission that first repairs what a
 dead worker left behind. Each database transaction is one step.
 */
module ChatQueue {
  import opened Prelude

  datatype Status = Queued | Streaming | Complete | Failed

  // A user message. `created` is its age mark.
  datatype Entry = Entry(stay: nat, status: Status, created: int)

  predicate Pending(e: Entry) {
    e.status == Queued || e.status == Streaming
  }

  datatype Stage = Delivered | SawQueued | Running | MaySave | Replied | Marked | Finished

  // One delivery of a request to a worker.
  datatype Worker = Worker(stay: nat, request: nat, stage: Stage)

  datatype World = World(
    stay: nat,
    entries: map<nat, Entry>,       // user messages by request
    next: nat,                      // next request id
    owner: map<nat, nat>,           // bookkeeping: the stay each request was enqueued under
    replies: set<(nat, nat)>,       // complete assistant messages: stay and request
    audits: set<(nat, nat)>,        // completion records: stay and request
    workers: map<nat, Worker>,
    claims: seq<nat>,               // bookkeeping: every successful claim
    saved: seq<nat>)                // bookkeeping: every saved reply

  const INITIAL := World(0, map[], 0, map[], {}, {}, map[], [], [])

  // ------------------------------------------------------------------
  // Admission
  // ------------------------------------------------------------------

  predicate Answered(w: World, request: nat) {
    (w.stay, request) in w.replies || (w.stay, request) in w.audits
  }

  // The repair of one message: completed when it was answered, failed when it is too old.
  function Repair(w: World, request: nat, staleBefore: int): Entry
    requires request in w.entries
  {
    var e := w.entries[request];
    if e.stay != w.stay || !Pending(e) then e
    else if Answered(w, request) then e.(status := Complete)
    else if e.created < staleBefore then e.(status := Failed)
    else e
  }

  predicate Busy(w: World, staleBefore: int) {
    exists r :: r in w.entries && w.entries[r].stay == w.stay && Pending(Repair(w, r, staleBefore))
  }

  // A refused admission rolls back, so it repairs nothing.
  function Enqueue(w: World, now: int, staleBefore: int): World {
    if Busy(w, staleBefore) then w
    else
      w.(entries := (map r | r in w.entries :: Repair(w, r, staleBefore))[w.next := Entry(w.stay, Queued, now)],
         owner := w.owner[w.next := w.stay],
         next := w.next + 1)
  }

  // ------------------------------------------------------------------
  // Workers
  // ------------------------------------------------------------------

  function At(w: World, id: nat, stage: Stage): World
    requires id in w.workers
  {
    w.(workers := w.workers[id := w.workers[id].(stage := stage)])
  }

  predicate Visible(w: World, k: Worker) {
    k.request in w.entries && w.entries[k.request].stay == k.stay
  }

  // Conditional status update: only a pending message takes the new status.
  function Settle(w: World, k: Worker, status: Status): World {
    if Visible(w, k) && Pending(w.entries[k.request])
    then w.(entries := w.entries[k.request := w.entries[k.request].(status := status)])
    else w
  }

  datatype Step =
    | Admit(now: int, staleBefore: int)
    | Deliver(worker: nat, request: nat)   // the broker hands the request out, again or for the first time
    | Look(worker: nat)                    // reads the status
    | Claim(worker: nat)                   // conditional update from queued to streaming
    | CheckStay(worker: nat)               // the agent has an answer and reads the current stay
    | SaveReply(worker: nat)
    | MarkComplete(worker: nat)
    | Audit(worker: nat)
    | Fail(worker: nat)                    // any exception while working on it
    | Reset

  predicate Enabled(w: World, s: Step) {
    match s
    case Admit(_, _) => true
    case Deliver(id, request) => id !in w.workers && request in w.owner
    case Look(id) => id in w.workers && w.workers[id].stage == Delivered
    case Claim(id) => id in w.workers && w.workers[id].stage == SawQueued
    case CheckStay(id) => id in w.workers && w.workers[id].stage == Running
    case SaveReply(id) => id in w.workers && w.workers[id].stage == MaySave
    case MarkComplete(id) => id in w.workers && w.workers[id].stage == Replied
    case Audit(id) => id in w.workers && w.workers[id].stage == Marked
    case Fail(id) => id in w.workers && w.workers[id].stage != Delivered && w.workers[id].stage != Finished
    case Reset => true
  }

  function Next(w: World, s: Step): World
    requires Enabled(w, s)
  {
    match s
    case Admit(now, staleBefore) => Enqueue(w, now, staleBefore)
    case Deliver(id, request) => w.(workers := w.workers[id := Worker(w.owner[request], request, Delivered)])
    case Look(id) =>
      var k := w.workers[id];
      if !Visible(w, k) then w
      else At(w, id, if w.entries[k.request].status == Queued then SawQueued else Finished)
    case Claim(id) =>
      var k := w.workers[id];
      if Visible(w, k) && w.entries[k.request].status == Queued
      then At(w, id, Running).(entries := w.entries[k.request := w.entries[k.request].(status := Streaming)],
                               claims := w.claims + [k.request])
      else At(w, id, Finished)
    case CheckStay(id) => At(w, id, if w.workers[id].stay == w.stay then MaySave else Replied)
    case SaveReply(id) =>
      var k := w.workers[id];
      At(w, id, Replied).(replies := w.replies + {(k.stay, k.request)}, saved := w.saved + [k.request])
    case MarkComplete(id) => At(Settle(w, w.workers[id], Complete), id, Marked)
    case Audit(id) => At(w, id, Finished).(audits := w.audits + {(w.workers[id].stay, w.workers[id].request)})
    case Fail(id) => At(Settle(w, w.workers[id], Failed), id, Finished)
    case Reset =>
      w.(entries := (map r | r in w.entries && w.entries[r].stay != w.stay :: w.entries[r]),
         replies := (set p | p in w.replies && p.0 != w.stay),
         stay := w.stay + 1)
  }

  // ------------------------------------------------------------------
  // The invariant
  // ------------------------------------------------------------------

  ghost predicate SingleFlight(w: World) {
    forall r, q :: r in w.entries && q in w.entries && r != q && Pending(w.entries[r]) && Pending(w.entries[q]) ==>
      w.entries[r].stay != w.entries[q].stay
  }

  ghost predicate HasClaimed(stage: Stage) {
    stage == Running || stage == MaySave || stage == Replied || stage == Marked
  }

  ghost predicate BothClaimed(k: Worker, l: Worker) {
    HasClaimed(k.stage) && HasClaimed(l.stage)
  }

  ghost predicate EntriesInv(w: World) {
    && (forall r :: r in w.entries ==> r in w.owner && w.owner[r] == w.entries[r].stay <= w.stay)
    && (forall r :: r in w.owner ==> r < w.next)
  }

  ghost predicate ClaimsInv(w: World) {
    && (forall i, j :: 0 <= i < j < |w.claims| ==> w.claims[i] != w.claims[j])
    && (forall r :: r in w.claims ==> r in w.owner && (r in w.entries ==> w.entries[r].status != Queued))
  }

  ghost predicate WorkersInv(w: World) {
    && (forall k :: k in w.workers ==> w.workers[k].request in w.owner && w.workers[k].stay == w.owner[w.workers[k].request])
    && (forall k :: k in w.workers && HasClaimed(w.workers[k].stage) ==> w.workers[k].request in w.claims)
    && (forall k, l :: k in w.workers && l in w.workers && k != l && BothClaimed(w.workers[k], w.workers[l]) ==>
          w.workers[k].request != w.workers[l].request)
  }

  // A worker that still may save has not saved, so each request is answered at most once.
  ghost predicate SavedInv(w: World) {
    && (forall i, j :: 0 <= i < j < |w.saved| ==> w.saved[i] != w.saved[j])
    && (forall r :: r in w.saved ==> r in w.claims)
    && (forall k :: k in w.workers && (w.workers[k].stage == Running || w.workers[k].stage == MaySave) ==>
          w.workers[k].request !in w.saved)
  }

  ghost predicate Inv(w: World) {
    SingleFlight(w) && EntriesInv(w) && ClaimsInv(w) && WorkersInv(w) && SavedInv(w)
  }

  // Statuses only move away from pending.
  ghost predicate Forward(w: World, w': World) {
    forall r :: r in w.entries && r in w'.entries ==>
      && w'.entries[r].stay == w.entries[r].stay
      && (!Pending(w.entries[r]) ==> w'.entries[r] == w.entries[r])
      && (w'.entries[r].status == Queued ==> w.entries[r].status == Queued)
  }

  lemma AdmitKeepsSingleFlight(w: World, now: int, staleBefore: int)
    requires Inv(w) && !Busy(w, staleBefore)
    ensures SingleFlight(Enqueue(w, now, staleBefore))
  {
  }

  lemma AdmitMovesForward(w: World, now: int, staleBefore: int)
    requires Inv(w) && !Busy(w, staleBefore)
    ensures EntriesInv(Enqueue(w, now, staleBefore)) && Forward(w, Enqueue(w, now, staleBefore))
  {
  }

  lemma AdmitKeepsInv(w: World, now: int, staleBefore: int)
    requires Inv(w)
    ensures Inv(Enqueue(w, now, staleBefore)) && Forward(w, Enqueue(w, now, staleBefore))
  {
    if !Busy(w, staleBefore) {
      AdmitKeepsSingleFlight(w, now, staleBefore);
      AdmitMovesForward(w, now, staleBefore);
      assert w.next !in w.claims;
    }
  }

  // A worker moves on without having to claim or to save.
  lemma MoveKeepsWorkers(w: World, id: nat, stage: Stage)
    requires Inv(w) && id in w.workers
    requires HasClaimed(stage) ==> HasClaimed(w.workers[id].stage)
    ensures WorkersInv(At(w, id, stage))
  {
  }

  lemma MoveKeepsInv(w: World, id: nat, stage: Stage)
    requires Inv(w) && id in w.workers
    requires HasClaimed(stage) ==> HasClaimed(w.workers[id].stage)
    requires stage == MaySave ==> w.workers[id].stage == Running
    requires stage != Running
    ensures Inv(At(w, id, stage)) && Forward(w, At(w, id, stage))
  {
    MoveKeepsWorkers(w, id, stage);
  }

  lemma SettleKeepsEntries(w: World, k: Worker, status: Status)
    requires Inv(w) && (status == Complete || status == Failed)
    ensures SingleFlight(Settle(w, k, status)) && EntriesInv(Settle(w, k, status))
  {
  }

  lemma SettleKeepsInv(w: World, k: Worker, status: Status)
    requires Inv(w) && (status == Complete || status == Failed)
    ensures Inv(Settle(w, k, status)) && Forward(w, Settle(w, k, status))
  {
    SettleKeepsEntries(w, k, status);
  }

  lemma ClaimKeepsEntries(w: World, id: nat)
    requires Inv(w) && Enabled(w, Claim(id))
    requires Visible(w, w.workers[id]) && w.entries[w.workers[id].request].status == Queued
    ensures
      var w' := Next(w, Claim(id));
      SingleFlight(w') && EntriesInv(w') && ClaimsInv(w') && Forward(w, w')
  {
    var k, w' := w.workers[id], Next(w, Claim(id));
    assert k.request !in w.claims;
    assert forall r :: r in w'.claims <==> r in w.claims || r == k.request;
  }

  lemma ClaimKeepsWorkers(w: World, id: nat)
    requires Inv(w) && Enabled(w, Claim(id))
    requires Visible(w, w.workers[id]) && w.entries[w.workers[id].request].status == Queued
    ensures
      var w' := Next(w, Claim(id));
      WorkersInv(w') && SavedInv(w')
  {
  }

  lemma ClaimStepKeepsInv(w: World, id: nat)
    requires Inv(w) && Enabled(w, Claim(id))
    ensures Inv(Next(w, Claim(id))) && Forward(w, Next(w, Claim(id)))
  {
    if Visible(w, w.workers[id]) && w.entries[w.workers[id].request].status == Queued {
      ClaimKeepsEntries(w, id);
      ClaimKeepsWorkers(w, id);
    } else {
      MoveKeepsInv(w, id, Finished);
    }
  }

  lemma LookKeepsInv(w: World, id: nat)
    requires Inv(w) && Enabled(w, Look(id))
    ensures Inv(Next(w, Look(id))) && Forward(w, Next(w, Look(id)))
  {
    MoveKeepsInv(w, id, SawQueued);
    MoveKeepsInv(w, id, Finished);
  }

  lemma CheckKeepsInv(w: World, id: nat)
    requires Inv(w) && Enabled(w, CheckStay(id))
    ensures Inv(Next(w, CheckStay(id))) && Forward(w, Next(w, CheckStay(id)))
  {
    MoveKeepsInv(w, id, MaySave);
    MoveKeepsInv(w, id, Replied);
  }

  lemma AuditKeepsInv(w: World, id: nat)
    requires Inv(w) && Enabled(w, Audit(id))
    ensures Inv(Next(w, Audit(id))) && Forward(w, Next(w, Audit(id)))
  {
    MoveKeepsInv(w, id, Finished);
  }

  // A conditional status update followed by the worker's move.
  lemma SettleAndMoveKeepsInv(w: World, id: nat, status: Status, stage: Stage)
    requires Inv(w) && id in w.workers && (status == Complete || status == Failed)
    requires stage == Finished || (stage == Marked && w.workers[id].stage == Replied)
    ensures Inv(At(Settle(w, w.workers[id], status), id, stage))
    ensures Forward(w, At(Settle(w, w.workers[id], status), id, stage))
  {
    SettleKeepsInv(w, w.workers[id], status);
    MoveKeepsInv(Settle(w, w.workers[id], status), id, stage);
  }

  lemma SaveKeepsSaved(w: World, id: nat)
    requires Inv(w) && Enabled(w, SaveReply(id))
    ensures SavedInv(Next(w, SaveReply(id)))
  {
  }

  lemma SaveKeepsInv(w: World, id: nat)
    requires Inv(w) && Enabled(w, SaveReply(id))
    ensures Inv(Next(w, SaveReply(id))) && Forward(w, Next(w, SaveReply(id)))
  {
    SaveKeepsSaved(w, id);
    MoveKeepsInv(w, id, Replied);
  }

  lemma DeliverKeepsWorkers(w: World, id: nat, request: nat)
    requires Inv(w) && Enabled(w, Deliver(id, request))
    ensures WorkersInv(Next(w, Deliver(id, request)))
  {
  }

  lemma DeliverKeepsInv(w: World, id: nat, request: nat)
    requires Inv(w) && Enabled(w, Deliver(id, request))
    ensures Inv(Next(w, Deliver(id, request))) && Forward(w, Next(w, Deliver(id, request)))
  {
    DeliverKeepsWorkers(w, id, request);
  }

  lemma ResetKeepsInv(w: World)
    requires Inv(w)
    ensures Inv(Next(w, Reset)) && Forward(w, Next(w, Reset))
  {
  }

  lemma NextKeepsInv(w: World, s: Step)
    requires Inv(w) && Enabled(w, s)
    ensures Inv(Next(w, s)) && Forward(w, Next(w, s))
  {
    match s
    case Admit(now, staleBefore) => AdmitKeepsInv(w, now, staleBefore);
    case Deliver(id, request) => DeliverKeepsInv(w, id, request);
    case Look(id) => LookKeepsInv(w, id);
    case Claim(id) => ClaimStepKeepsInv(w, id);
    case CheckStay(id) => CheckKeepsInv(w, id);
    case SaveReply(id) => SaveKeepsInv(w, id);
    case MarkComplete(id) => SettleAndMoveKeepsInv(w, id, Complete, Marked);
    case Audit(id) => AuditKeepsInv(w, id);
    case Fail(id) => SettleAndMoveKeepsInv(w, id, Failed, Finished);
    case Reset => ResetKeepsInv(w);
  }

  // ------------------------------------------------------------------
  // Every run
  // ------------------------------------------------------------------

  ghost predicate IsRun(ws: seq<World>, ss: seq<Step>) {
    && |ws| == |ss| + 1 && ws[0] == INITIAL
    && forall i :: 0 <= i < |ss| ==> Enabled(ws[i], ss[i]) && ws[i + 1] == Next(ws[i], ss[i])
  }

  lemma {:induction false} RunInv(ws: seq<World>, ss: seq<Step>, i: nat)
    requires IsRun(ws, ss) && i < |ws|
    ensures Inv(ws[i])
  {
    if i > 0 {
      RunInv(ws, ss, i - 1);
      NextKeepsInv(ws[i - 1], ss[i - 1]);
    }
  }

  // At every point at most one user message of a stay is queued or streaming, no request was claimed twice,
  // and none was answered twice.
  lemma SingleFlightAlways(ws: seq<World>, ss: seq<Step>, i: nat)
    requires IsRun(ws, ss) && i < |ws|
    ensures SingleFlight(ws[i])
    ensures forall a, b :: 0 <= a < b < |ws[i].claims| ==> ws[i].claims[a] != ws[i].claims[b]
    ensures forall a, b :: 0 <= a < b < |ws[i].saved| ==> ws[i].saved[a] != ws[i].saved[b]
  {
    RunInv(ws, ss, i);
  }

  lemma OwnersStay(w: World, s: Step)
    requires EntriesInv(w) && Enabled(w, s)
    ensures forall r :: r in w.owner ==> r in Next(w, s).owner
    ensures forall r :: r in w.owner && r in Next(w, s).entries ==> r in w.entries
  {
  }

  // Complete and failed are final: such a message keeps its status until the stay is reset.
  lemma {:induction false} SettledIsFinal(ws: seq<World>, ss: seq<Step>, i: nat, j: nat, r: nat)
    requires IsRun(ws, ss) && i <= j < |ws|
    requires r in ws[i].entries && !Pending(ws[i].entries[r])
    ensures r in ws[j].owner
    ensures r in ws[j].entries ==> ws[j].entries[r] == ws[i].entries[r]
    decreases j
  {
    RunInv(ws, ss, i);
    if i < j {
      SettledIsFinal(ws, ss, i, j - 1, r);
      RunInv(ws, ss, j - 1);
      OwnersStay(ws[j - 1], ss[j - 1]);
      NextKeepsInv(ws[j - 1], ss[j - 1]);
    }
  }

  ghost predicate SettledOrGone(w: World, r: nat) {
    r in w.owner && (r in w.entries ==> !Pending(w.entries[r]))
  }

  lemma EndingSettles(w: World, s: Step)
    requires Inv(w) && Enabled(w, s) && (s.MarkComplete? || s.Fail?)
    ensures SettledOrGone(Next(w, s), w.workers[s.worker].request)
  {
    var k := w.workers[s.worker];
    assert k.request in w.entries ==> w.entries[k.request].stay == k.stay;
  }

  // A worker that gets to its end, well or badly, leaves its message settled for good; only one that dies on the way
  // leaves it to the repair at the next admission.
  lemma {:induction false} EndedIsSettled(ws: seq<World>, ss: seq<Step>, i: nat, j: nat)
    requires IsRun(ws, ss) && i < j < |ws| && (ss[i].MarkComplete? || ss[i].Fail?)
    ensures ss[i].worker in ws[i].workers && SettledOrGone(ws[j], ws[i].workers[ss[i].worker].request)
    decreases j
  {
    var k := j - 1;
    assert Enabled(ws[i], ss[i]) && Enabled(ws[k], ss[k]) && ws[k + 1] == Next(ws[k], ss[k]);
    RunInv(ws, ss, k);
    if k == i {
      EndingSettles(ws[i], ss[i]);
    } else {
      EndedIsSettled(ws, ss, i, k);
      OwnersStay(ws[k], ss[k]);
      NextKeepsInv(ws[k], ss[k]);
    }
  }

  // Admission never fails a message that was answered; it fails exactly the pending, unanswered, stale ones
  // and completes exactly the pending answered ones.
  lemma RecoveryIsExact(w: World, now: int, staleBefore: int, r: nat)
    requires Inv(w) && r in w.entries && w.entries[r].stay == w.stay && Pending(w.entries[r])
    requires Enqueue(w, now, staleBefore) != w
    ensures
      var after := Enqueue(w, now, staleBefore).entries[r].status;
      && (after == Failed <==> !Answered(w, r) && w.entries[r].created < staleBefore)
      && (after == Complete <==> (w.stay, r) in w.replies || (w.stay, r) in w.audits)
      && (after == Failed || after == Complete)
  {
  }

  // A message is admitted if and only if every pending message of the stay is answered or stale; then it is
  // the one pending message.
  lemma AdmittedIff(w: World, now: int, staleBefore: int)
    requires Inv(w)
    ensures
      var w' := Enqueue(w, now, staleBefore);
      && (w' != w <==> forall r :: r in w.entries && w.entries[r].stay == w.stay && Pending(w.entries[r]) ==>
                         Answered(w, r) || w.entries[r].created < staleBefore)
      && (w' != w ==> w.next !in w.entries && w'.entries[w.next] == Entry(w.stay, Queued, now)
                      && forall r :: r in w'.entries && w'.entries[r].stay == w.stay && Pending(w'.entries[r]) ==> r == w.next)
  {
  }

  // A task that finds its message already claimed, settled or deleted changes no message.
  lemma LateDeliveryIsHarmless(w: World, id: nat)
    requires Inv(w) && Enabled(w, Claim(id))
    requires w.workers[id].request in w.claims || w.workers[id].request !in w.entries
    ensures Next(w, Claim(id)).entries == w.entries && Next(w, Claim(id)).claims == w.claims
    ensures Next(w, Claim(id)).workers[id].stage == Finished
  {
  }

  // ------------------------------------------------------------------
  // What becomes of a message
  // ------------------------------------------------------------------

  // Nothing of the stay stands in the way of a new message.
  ghost predicate Clear(w: World, staleBefore: int) {
    forall r :: r in w.entries && w.entries[r].stay == w.stay && Pending(w.entries[r]) ==>
      Answered(w, r) || w.entries[r].created < staleBefore
  }

  // The status a step gives to a message that stays.
  ghost function StatusAfter(w: World, s: Step, r: nat): Status
    requires Enabled(w, s) && r in w.entries
  {
    var e := w.entries[r];
    if (s.Claim? || s.MarkComplete? || s.Fail?) && w.workers[s.worker].request == r && w.workers[s.worker].stay == e.stay then
      if s.Claim? then (if e.status == Queued then Streaming else e.status)
      else if e.status != Queued && e.status != Streaming then e.status
      else if s.MarkComplete? then Complete
      else Failed
    else if s.Admit? && Clear(w, s.staleBefore) && e.stay == w.stay && (e.status == Queued || e.status == Streaming) then
      if (w.stay, r) in w.replies || (w.stay, r) in w.audits then Complete else Failed
    else e.status
  }

  // A message goes only with its stay, keeps its age and stay, and changes its status only in these ways: claimed, marked
  // complete by its worker, failed by its worker, or repaired by an admission.
  lemma EntryAfter(w: World, s: Step, r: nat)
    requires Inv(w) && Enabled(w, s) && r in w.entries
    ensures r !in Next(w, s).entries <==> s.Reset? && w.entries[r].stay == w.stay
    ensures r in Next(w, s).entries ==>
              Next(w, s).entries[r] == Entry(w.entries[r].stay, StatusAfter(w, s, r), w.entries[r].created)
  {
    if s.Admit? { AdmittedIff(w, s.now, s.staleBefore); }
  }

  lemma {:induction false} EntriesAreCurrent(ws: seq<World>, ss: seq<Step>, i: nat)
    requires IsRun(ws, ss) && i < |ws|
    ensures forall r :: r in ws[i].entries ==> ws[i].entries[r].stay == ws[i].stay
  {
    if i > 0 {
      EntriesAreCurrent(ws, ss, i - 1);
      assert ws[i] == Next(ws[i - 1], ss[i - 1]);
      EntriesStayCurrent(ws[i - 1], ss[i - 1]);
    }
  }

  lemma EntriesStayCurrent(w: World, s: Step)
    requires Enabled(w, s) && forall r :: r in w.entries ==> w.entries[r].stay == w.stay
    ensures forall r :: r in Next(w, s).entries ==> Next(w, s).entries[r].stay == Next(w, s).stay
  {
  }

  // A worker of the request comes to its end, or the stay does.
  predicate Closes(w: World, s: Step, r: nat)
    requires Enabled(w, s)
  {
    s.Reset? || ((s.MarkComplete? || s.Fail?) && w.workers[s.worker].request == r)
  }

  ghost predicate Admits(w: World, s: Step) {
    s.Admit? && Clear(w, s.staleBefore)
  }

  ghost predicate ClaimedAt(ws: seq<World>, ss: seq<Step>, m: nat, r: nat)
    requires IsRun(ws, ss) && m < |ss|
  {
    && ss[m].Claim? && Enabled(ws[m], ss[m]) && ws[m].workers[ss[m].worker].request == r
    && |ws[m + 1].claims| > |ws[m].claims|
  }

  lemma ClaimStreams(w: World, id: nat)
    requires Inv(w) && Enabled(w, Claim(id))
    ensures
      var k, w' := w.workers[id], Next(w, Claim(id));
      |w'.claims| > |w.claims| <==> k.request in w.entries && w.entries[k.request].status == Queued
    ensures
      var k, w' := w.workers[id], Next(w, Claim(id));
      |w'.claims| > |w.claims| ==>
        k.request in w'.entries && w'.entries[k.request] == Entry(k.stay, Streaming, w.entries[k.request].created)
        && w'.workers[id].stage == Running
  {
    var k := w.workers[id];
    if k.request in w.entries {
      EntryAfter(w, Claim(id), k.request);
    }
  }

  lemma StreamingStep(w: World, s: Step, r: nat)
    requires Inv(w) && Enabled(w, s) && r in w.entries && w.entries[r].stay == w.stay && !Closes(w, s, r)
    requires w.entries[r].status != Queued
    ensures r in Next(w, s).entries && Next(w, s).entries[r].status != Queued
    ensures Next(w, s).entries[r].status == Streaming <==> w.entries[r].status == Streaming && !Admits(w, s)
  {
    EntryAfter(w, s, r);
  }

  // No message is admitted between two points, and no worker of the request, nor its stay, comes to an end.
  ghost predicate NoneAdmitted(ws: seq<World>, ss: seq<Step>, m: nat, j: nat)
    requires m < j <= |ss| && j < |ws|
  {
    forall n :: m < n < j ==> !Admits(ws[n], ss[n])
  }

  ghost predicate StaysOpen(ws: seq<World>, ss: seq<Step>, m: nat, j: nat, r: nat)
    requires m < j <= |ss| && j < |ws|
  {
    forall n :: m < n < j ==> Enabled(ws[n], ss[n]) && !Closes(ws[n], ss[n], r)
  }

  lemma OneMoreStep(ws: seq<World>, ss: seq<Step>, m: nat, k: nat)
    requires m < k < |ss| && k + 1 < |ws|
    ensures NoneAdmitted(ws, ss, m, k + 1) <==> NoneAdmitted(ws, ss, m, k) && !Admits(ws[k], ss[k])
  {
  }

  lemma StreamsNext(ws: seq<World>, ss: seq<Step>, k: nat, r: nat)
    requires IsRun(ws, ss) && k < |ss| && Enabled(ws[k], ss[k]) && !Closes(ws[k], ss[k], r)
    requires r in ws[k].entries && ws[k].entries[r].status != Queued
    ensures r in ws[k + 1].entries && ws[k + 1].entries[r].status != Queued
    ensures ws[k + 1].entries[r].status == Streaming <==> ws[k].entries[r].status == Streaming && !Admits(ws[k], ss[k])
  {
    RunInv(ws, ss, k);
    EntriesAreCurrent(ws, ss, k);
    StreamingStep(ws[k], ss[k], r);
  }

  lemma ClaimStreamsNow(ws: seq<World>, ss: seq<Step>, m: nat, r: nat)
    requires IsRun(ws, ss) && m < |ss| && ClaimedAt(ws, ss, m, r)
    ensures r in ws[m + 1].entries && ws[m + 1].entries[r].status == Streaming
  {
    RunInv(ws, ss, m);
    ClaimStreams(ws[m], ss[m].worker);
  }

  // In every run: from its claim until a worker of its request or its stay comes to an end, a message is streaming if and
  // only if no new message was admitted since.
  lemma {:induction false} ClaimedStreamsIff(ws: seq<World>, ss: seq<Step>, m: nat, j: nat, r: nat)
    requires IsRun(ws, ss) && m < j < |ws| && ClaimedAt(ws, ss, m, r) && StaysOpen(ws, ss, m, j, r)
    ensures r in ws[j].entries && ws[j].entries[r].status != Queued
    ensures ws[j].entries[r].status == Streaming <==> NoneAdmitted(ws, ss, m, j)
    decreases j
  {
    if j == m + 1 {
      ClaimStreamsNow(ws, ss, m, r);
    } else {
      ClaimedStreamsIff(ws, ss, m, j - 1, r);
      StreamsNext(ws, ss, j - 1, r);
      OneMoreStep(ws, ss, m, j - 1);
    }
  }

  // So while a request is being worked on, unanswered and not stale, no other is admitted.
  lemma WorkKeepsOthersOut(ws: seq<World>, ss: seq<Step>, m: nat, j: nat, r: nat, now: int, staleBefore: int)
    requires IsRun(ws, ss) && m < j < |ws| && ClaimedAt(ws, ss, m, r)
    requires StaysOpen(ws, ss, m, j, r) && NoneAdmitted(ws, ss, m, j)
    requires r in ws[j].entries
    requires (ws[j].stay, r) !in ws[j].replies && (ws[j].stay, r) !in ws[j].audits && staleBefore <= ws[j].entries[r].created
    ensures Next(ws[j], Admit(now, staleBefore)) == ws[j]
  {
    ClaimedStreamsIff(ws, ss, m, j, r);
    EntriesAreCurrent(ws, ss, j);
    RunInv(ws, ss, j);
    AdmittedIff(ws[j], now, staleBefore);
  }

  // And a worker that ends a streaming message completes it when it worked and fails it when it did not.
  lemma WorkEndsAs(ws: seq<World>, ss: seq<Step>, i: nat)
    requires IsRun(ws, ss) && i < |ss| && Enabled(ws[i], ss[i]) && (ss[i].MarkComplete? || ss[i].Fail?)
    ensures
      var r := ws[i].workers[ss[i].worker].request;
      r in ws[i].entries && ws[i].entries[r].status == Streaming ==>
        r in ws[i + 1].entries && ws[i + 1].entries[r].status == (if ss[i].MarkComplete? then Complete else Failed)
  {
    var r := ws[i].workers[ss[i].worker].request;
    RunInv(ws, ss, i);
    if r in ws[i].entries {
      EntryAfter(ws[i], ss[i], r);
    }
  }

  // ------------------------------------------------------------------
  // A request that nothing disturbs
  // ------------------------------------------------------------------

  // A sequence of steps from one world to another.
  ghost predicate Leads(w: World, ss: seq<Step>, w': World)
    decreases |ss|
  {
    if ss == [] then w == w' else Enabled(w, ss[0]) && Leads(Next(w, ss[0]), ss[1..], w')
  }

  lemma LeadsOn(w: World, s: Step, ss: seq<Step>, w': World)
    requires Enabled(w, s) && Leads(Next(w, s), ss, w')
    ensures Leads(w, [s] + ss, w')
  {
    assert ([s] + ss)[1..] == ss;
  }

  lemma {:induction false} LeadsJoin(w: World, ss: seq<Step>, v: World, ts: seq<Step>, w': World)
    requires Leads(w, ss, v) && Leads(v, ts, w')
    ensures Leads(w, ss + ts, w')
    decreases |ss|
  {
    if ss == [] {
      assert ss + ts == ts;
    } else {
      assert (ss + ts)[0] == ss[0] && (ss + ts)[1..] == ss[1..] + ts;
      LeadsJoin(Next(w, ss[0]), ss[1..], v, ts, w');
    }
  }

  lemma TwoSteps(w: World, s: Step, t: Step)
    requires Enabled(w, s) && Enabled(Next(w, s), t)
    ensures Leads(w, [s, t], Next(Next(w, s), t))
  {
    LeadsOn(Next(w, s), t, [], Next(Next(w, s), t));
    LeadsOn(w, s, [t], Next(Next(w, s), t));
    assert [s] + [t] == [s, t];
  }

  // Admitted and delivered.
  lemma Arrives(w: World, now: int, staleBefore: int, id: nat) returns (w': World)
    requires Inv(w) && Clear(w, staleBefore) && id !in w.workers
    ensures Leads(w, [Admit(now, staleBefore), Deliver(id, w.next)], w') && Inv(w')
    ensures w'.stay == w.stay && w'.replies == w.replies && w'.audits == w.audits
    ensures id in w'.workers && w'.workers[id] == Worker(w.stay, w.next, Delivered)
    ensures w.next in w'.entries && w'.entries[w.next] == Entry(w.stay, Queued, now)
  {
    AdmittedIff(w, now, staleBefore);
    NextKeepsInv(w, Admit(now, staleBefore));
    var w1 := Next(w, Admit(now, staleBefore));
    NextKeepsInv(w1, Deliver(id, w.next));
    w' := Next(w1, Deliver(id, w.next));
    TwoSteps(w, Admit(now, staleBefore), Deliver(id, w.next));
  }

  // Seen and claimed.
  lemma Begins(w: World, id: nat, r: nat) returns (w': World)
    requires Inv(w) && id in w.workers && w.workers[id] == Worker(w.stay, r, Delivered)
    requires r in w.entries && w.entries[r].stay == w.stay && w.entries[r].status == Queued
    ensures Leads(w, [Look(id), Claim(id)], w') && Inv(w')
    ensures w'.stay == w.stay && w'.replies == w.replies && w'.audits == w.audits
    ensures id in w'.workers && w'.workers[id] == Worker(w.stay, r, Running)
    ensures r in w'.entries && w'.entries[r].stay == w.stay && w'.entries[r].status == Streaming
  {
    NextKeepsInv(w, Look(id));
    var w1 := Next(w, Look(id));
    w' := Claims(w1, id, r);
    TwoSteps(w, Look(id), Claim(id));
  }

  lemma Claims(w: World, id: nat, r: nat) returns (w': World)
    requires Inv(w) && Enabled(w, Claim(id)) && w.workers[id].request == r && w.workers[id].stay == w.stay
    requires r in w.entries && w.entries[r].stay == w.stay && w.entries[r].status == Queued
    ensures w' == Next(w, Claim(id)) && Inv(w')
    ensures w'.stay == w.stay && w'.replies == w.replies && w'.audits == w.audits
    ensures id in w'.workers && w'.workers[id] == Worker(w.stay, r, Running)
    ensures r in w'.entries && w'.entries[r].stay == w.stay && w'.entries[r].status == Streaming
  {
    w' := Next(w, Claim(id));
    NextKeepsInv(w, Claim(id));
  }

  lemma Answers(w: World, id: nat) returns (w': World)
    requires Inv(w) && id in w.workers && w.workers[id].stage == Running && w.workers[id].stay == w.stay
    requires w.workers[id].request in w.entries && w.entries[w.workers[id].request].status == Streaming
    requires w.entries[w.workers[id].request].stay == w.stay
    ensures Leads(w, [CheckStay(id), SaveReply(id), MarkComplete(id), Audit(id)], w')
    ensures
      var r := w.workers[id].request;
      && w'.replies == w.replies + {(w.stay, r)} && w'.audits == w.audits + {(w.stay, r)}
      && r in w'.entries && w'.entries[r].status == Complete
  {
    var s0, s1, s2, s3 := CheckStay(id), SaveReply(id), MarkComplete(id), Audit(id);
    var w1 := Next(w, s0);
    var w2 := Next(w1, s1);
    var w3 := Next(w2, s2);
    w' := Next(w3, s3);
    LeadsOn(w3, s3, [], w');
    LeadsOn(w2, s2, [s3], w');
    LeadsOn(w1, s1, [s2] + [s3], w');
    LeadsOn(w, s0, [s1] + ([s2] + [s3]), w');
    assert [s0] + ([s1] + ([s2] + [s3])) == [s0, s1, s2, s3];
  }

  // A request that is admitted and whose worker nothing disturbs is answered: its message is complete, with one reply and
  // one record.
  lemma UndisturbedRequestIsAnswered(w: World, now: int, staleBefore: int, id: nat) returns (ss: seq<Step>, w': World)
    requires Inv(w) && Clear(w, staleBefore) && id !in w.workers
    ensures Leads(w, ss, w')
    ensures w.next in w'.entries && w'.entries[w.next].status == Complete
    ensures w'.replies == w.replies + {(w.stay, w.next)} && w'.audits == w.audits + {(w.stay, w.next)}
  {
    var first, second := [Admit(now, staleBefore), Deliver(id, w.next)], [Look(id), Claim(id)];
    var third := [CheckStay(id), SaveReply(id), MarkComplete(id), Audit(id)];
    var w1 := Arrives(w, now, staleBefore, id);
    var w2 := Begins(w1, id, w.next);
    w' := Answers(w2, id);
    LeadsJoin(w1, second, w2, third, w');
    LeadsJoin(w, first, w1, second + third, w');
    ss := first + (second + third);
  }

  // One whose stay is reset under the worker is not answered: no reply is saved.
  lemma ResetKeepsReplyOut(w: World, id: nat)
    requires Enabled(w, CheckStay(id))
    ensures Next(w, CheckStay(id)).workers[id].stage == MaySave <==> w.workers[id].stay == w.stay
    ensures Next(w, CheckStay(id)).workers[id].stage == MaySave || !Enabled(Next(w, CheckStay(id)), SaveReply(id))
  {
  }

  // ------------------------------------------------------------------
  // The admission transaction as code
  // ------------------------------------------------------------------

  // UPDATE of the stay's pending messages among `which`.
  function Updated(entries: map<nat, Entry>, stay: nat, which: set<nat>, status: Status): map<nat, Entry> {
    map r | r in entries ::
      if entries[r].stay == stay && Pending(entries[r]) && r in which then entries[r].(status := status) else entries[r]
  }

  // The three passes in this order are the repair of each message.
  lemma PassesAreRepair(w: World, staleBefore: int, replied: set<nat>, audited: set<nat>, stale: set<nat>)
    requires forall r :: r in replied <==> r in w.entries && (w.stay, r) in w.replies
    requires forall r :: r in audited <==> r in w.entries && (w.stay, r) in w.audits
    requires forall r :: r in stale <==> r in w.entries && w.entries[r].created < staleBefore
    ensures
      var first := Updated(w.entries, w.stay, replied, Complete);
      var second := Updated(first, w.stay, audited, Complete);
      Updated(second, w.stay, stale, Failed) == map r | r in w.entries :: Repair(w, r, staleBefore)
  {
  }

  ghost predicate OnlyPending(w: World, request: nat) {
    && request in w.entries && w.entries[request].stay == w.stay && Pending(w.entries[request])
    && forall r :: r in w.entries && w.entries[r].stay == w.stay && Pending(w.entries[r]) ==> r == request
  }

  lemma AdmissionFacts(w: World, now: int, staleBefore: int)
    requires Inv(w)
    ensures
      var w' := Enqueue(w, now, staleBefore);
      && Inv(w') && (Clear(w, staleBefore) <==> w'.next != w.next)
      && (w'.next != w.next ==> OnlyPending(w', w.next)) && (w'.next == w.next ==> w' == w)
  {
    AdmitKeepsInv(w, now, staleBefore);
    AdmittedIff(w, now, staleBefore);
  }

  lemma SettlesAs(w: World, s: Step)
    requires Inv(w) && Enabled(w, s) && (s.MarkComplete? || s.Fail?)
    ensures
      var k := w.workers[s.worker];
      Next(w, s).entries ==
        if k.request in w.entries && w.entries[k.request].stay == k.stay && Pending(w.entries[k.request])
        then w.entries[k.request := w.entries[k.request].(status := if s.MarkComplete? then Complete else Failed)]
        else w.entries
    ensures w.workers[s.worker].request in w.entries ==>
              w.entries[w.workers[s.worker].request].stay == w.workers[s.worker].stay
    ensures Inv(Next(w, s)) && Next(w, s) == w.(entries := Next(w, s).entries, workers := Next(w, s).workers)
  {
    NextKeepsInv(w, s);
  }

  lemma ResetClears(w: World, staleBefore: int)
    requires Inv(w)
    ensures Clear(Next(w, Reset), staleBefore)
  {
    assert forall r :: r in w.entries ==> w.entries[r].stay <= w.stay;
  }

  class Tables {
    var stay: nat
    var entries: map<nat, Entry>
    var next: nat
    var replies: set<(nat, nat)>
    var audits: set<(nat, nat)>
    ghost var world: World       // the tables with the workers under way

    ghost predicate Mirrors()
      reads this
    {
      && world.stay == stay && world.entries == entries && world.next == next
      && world.replies == replies && world.audits == audits
    }

    // The tables are those of a world in which the queue's invariant holds.
    ghost predicate Valid()
      reads this
    {
      Mirrors() && Inv(world)
    }

    constructor ()
      ensures Valid() && world == INITIAL
    {
      stay, entries, next, replies, audits := 0, map[], 0, {}, {};
      world := INITIAL;
    }

    method UpdatePending(which: set<nat>, status: Status)
      modifies this`entries
      ensures entries == Updated(old(entries), stay, which, status)
    {
      entries := map r | r in entries ::
        if entries[r].stay == stay && Pending(entries[r]) && r in which then entries[r].(status := status) else entries[r];
    }

    // The two repair passes and the stale recovery.
    method RepairPasses(staleBefore: int)
      requires Mirrors()
      modifies this`entries
      ensures entries == map r | r in world.entries :: Repair(world, r, staleBefore)
    {
      var replied := set r | r in entries && (stay, r) in replies;
      UpdatePending(replied, Complete);
      var audited := set r | r in entries && (stay, r) in audits;
      UpdatePending(audited, Complete);
      var stale := set r | r in entries && entries[r].created < staleBefore;
      UpdatePending(stale, Failed);
      PassesAreRepair(world, staleBefore, replied, audited, stale);
    }

    // Repair, then the admission check; a refusal rolls everything back. A message is admitted exactly when every
    // pending one is answered or stale, and is then the only pending one.
    method EnqueueMessage(now: int, staleBefore: int) returns (request: Option<nat>)
      requires Valid()
      modifies this
      ensures Valid() && world == Enqueue(old(world), now, staleBefore)
      ensures request.Some? <==> Clear(old(world), staleBefore)
      ensures request.Some? ==> request.value == old(next) && OnlyPending(world, request.value)
      ensures request.None? ==> entries == old(entries) && next == old(next)
    {
      AdmissionFacts(world, now, staleBefore);
      request := Admit(now, staleBefore);
    }

    method Admit(now: int, staleBefore: int) returns (request: Option<nat>)
      requires Mirrors()
      modifies this
      ensures Mirrors() && world == Enqueue(old(world), now, staleBefore)
      ensures request == if Busy(old(world), staleBefore) then None else Some(old(next))
    {
      var before := entries;
      RepairPasses(staleBefore);
      var active := ActiveMessages(staleBefore);
      if active != {} {
        entries := before;
        return None;
      }
      request := Some(next);
      entries := entries[next := Entry(stay, Queued, now)];
      next := next + 1;
      world := Enqueue(world, now, staleBefore);
    }

    method ActiveMessages(ghost staleBefore: int) returns (active: set<nat>)
      requires stay == world.stay && entries == map r | r in world.entries :: Repair(world, r, staleBefore)
      ensures active != {} <==> Busy(world, staleBefore)
    {
      active := set r | r in entries && entries[r].stay == stay && Pending(entries[r]);
      if Busy(world, staleBefore) {
        ghost var r :| r in world.entries && world.entries[r].stay == world.stay && Pending(Repair(world, r, staleBefore));
        assert r in active;
      }
    }

    // The worker's conditional update from queued to streaming; it counts the rows it changed.
    method ClaimRequest(id: nat, k: Worker) returns (claimed: nat)
      requires Valid() && Enabled(world, Claim(id)) && world.workers[id] == k
      modifies this
      ensures Valid() && world == Next(old(world), Claim(id))
      ensures claimed == |world.claims| - |old(world).claims|
      ensures claimed == if k.request in old(entries) && old(entries)[k.request].status == Queued then 1 else 0
      ensures claimed == 1 ==>
                entries == old(entries)[k.request := Entry(k.stay, Streaming, old(entries)[k.request].created)]
      ensures claimed == 0 ==> entries == old(entries)
    {
      ClaimStreams(world, id);
      NextKeepsInv(world, Claim(id));
      world := Next(world, Claim(id));
      if k.request !in entries || entries[k.request].stay != k.stay || entries[k.request].status != Queued {
        return 0;
      }
      entries := entries[k.request := entries[k.request].(status := Streaming)];
      claimed := 1;
    }

    // The conditional update that ends a request, when it worked and when it failed: the message is settled for good.
    method SettleRequest(id: nat, k: Worker, status: Status)
      requires Valid() && (status == Complete || status == Failed)
      requires Enabled(world, if status == Complete then MarkComplete(id) else Fail(id)) && world.workers[id] == k
      modifies this
      ensures Valid() && world == Next(old(world), if status == Complete then MarkComplete(id) else Fail(id))
      ensures k.request in entries ==> !Pending(entries[k.request])
      ensures k.request in old(entries) && old(entries)[k.request].status in {Queued, Streaming} ==>
                k.request in entries && entries[k.request].status == status
      ensures forall r :: r in old(entries) && r != k.request ==> r in entries && entries[r] == old(entries)[r]
    {
      ghost var step := if status == Complete then MarkComplete(id) else Fail(id);
      SettlesAs(world, step);
      Settle(k, status, Next(world, step));
    }

    method Settle(k: Worker, status: Status, ghost after: World)
      requires Mirrors() && after == world.(entries := after.entries, workers := after.workers)
      requires after.entries == if k.request in entries && entries[k.request].stay == k.stay && Pending(entries[k.request])
                                then entries[k.request := entries[k.request].(status := status)] else entries
      modifies this
      ensures Mirrors() && world == after
    {
      UpdateStatus(k, status);
      world := after;
    }

    method UpdateStatus(k: Worker, status: Status)
      modifies this`entries
      ensures entries == if k.request in old(entries) && old(entries)[k.request].stay == k.stay && Pending(old(entries)[k.request])
                         then old(entries)[k.request := old(entries)[k.request].(status := status)] else old(entries)
    {
      if k.request in entries && entries[k.request].stay == k.stay && Pending(entries[k.request]) {
        entries := entries[k.request := entries[k.request].(status := status)];
      }
    }

    // Deletes the stay's messages and starts a new stay, whose first message is admitted at once; messages of other
    // stays are not touched.
    method ResetStay()
      requires Valid()
      modifies this
      ensures Valid() && world == Next(old(world), Reset)
      ensures forall staleBefore :: Clear(world, staleBefore)
      ensures forall r :: r in entries <==> r in old(entries) && old(entries)[r].stay != old(stay)
      ensures forall r :: r in entries ==> entries[r] == old(entries)[r]
      ensures stay == old(stay) + 1 && forall p :: p in replies <==> p in old(replies) && p.0 != old(stay)
    {
      NextKeepsInv(world, Reset);
      forall staleBefore: int
        ensures Clear(Next(world, Reset), staleBefore)
      {
        ResetClears(world, staleBefore);
      }
      world := Next(world, Reset);
      entries := map r | r in entries && entries[r].stay != stay :: entries[r];
      replies := set p | p in replies && p.0 != stay;
      stay := stay + 1;
    }
  }
}
