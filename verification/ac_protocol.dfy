/**
 The whole air-conditioner protocol as a step system: one controller with its flash and its
 pending notification, Django's mirror row and its current command transaction, and a network
 that may lose, duplicate, delay and reorder everything ever put on it. Any client may send any
 command to the controller at any time. The theorems speak about every run.
 */
module AcProtocol {
  import opened Prelude
  import opened AcModel
  import opened AcFlash
  import opened AcFirmware
  import opened AcDjango

  // A command transaction holds the device lock. `row` is its private instance of the mirror row, `request` the
  // number of the HTTP request it is waiting for.
  datatype Txn = Idle
    | AwaitFirst(remote: Remote, changes: Patch, row: Row, posted: Command, request: nat)
    | AwaitCurrent(remote: Remote, changes: Patch, row: Row, posted: Command, request: nat)
    | AwaitSecond(remote: Remote, changes: Patch, row: Row, posted: Command, request: nat)

  // One command handled by the controller: the request it came with (none for a stray copy or another client),
  // what it held before and after, and its answer.
  datatype Exchange = Exchange(request: Option<nat>, command: Command, before: Ctrl, after: Ctrl, reply: Reply)

  // One answered GET.
  datatype Fetch = Fetch(request: nat, report: Report)

  datatype World = World(
    device: Device, remote: Remote, row: Row, txn: Txn,
    requests: nat,             // HTTP requests Django has made so far
    posts: map<nat, Command>,  // the POSTs among them
    exchanges: set<Exchange>,  // every answered POST; an answer may arrive any number of times, or never
    fetches: set<Fetch>,       // every answered GET
    notes: set<Report>,        // every notification body ever sent
    acked: set<Report>,        // notification bodies Django has answered with success
    history: map<nat, Ctrl>,   // bookkeeping: what the controller held at each version
    sendings: seq<Command>,    // bookkeeping: every command that reached the transmitter, also in vain
    changed: bool)             // bookkeeping: a committed change since the last boot

  datatype Step =
    | Begin(changes: Patch)                      // Django starts a command and POSTs it
    | Serve(command: Command, sent: bool, request: Option<nat>)  // the controller handles a POST, or any copy of one
    | ServeGet(get: nat)                         // the controller answers a GET
    | Reboot                                     // power cycle
    | FirstAnswer(exchange: Exchange)            // Django receives an answer to its first POST
    | CurrentAnswer(fetch: Fetch)                // Django receives an answer to its GET
    | SecondAnswer(exchange: Exchange)           // Django receives an answer to its second POST
    | GiveUp                                     // timeout, network error or unusable answer
    | Reconfigure(remote: Remote)                // an administrator edits the device
    | SendNote                                   // the controller POSTs its pending notification
    | TakeNote(note: Report)                     // Django handles a copy of a notification
    | HearAck                                    // the controller receives a success answer to it

  const CALLBACKS := true

  function Init(remote: Remote): World {
    var unit := Boot(ERASED);
    World(Device(unit, None), remote, NEW_ROW, Idle, 0, map[], {}, {}, {}, {}, map[0 := unit.ram], [], false)
  }

  predicate Enabled(w: World, s: Step) {
    match s
    case Begin(changes) => w.txn.Idle? && CheckRequest(Some(w.remote), changes).None?
    case Serve(command, _, request) => request.Some? ==> request.value in w.posts && w.posts[request.value] == command
    case ServeGet(get) => w.device.unit.ram.configured && get < w.requests
    case Reboot => true
    case FirstAnswer(x) => w.txn.AwaitFirst? && x in w.exchanges && x.request == Some(w.txn.request)
    case CurrentAnswer(fetch) => w.txn.AwaitCurrent? && fetch in w.fetches && fetch.request == w.txn.request
    case SecondAnswer(x) => w.txn.AwaitSecond? && x in w.exchanges && x.request == Some(w.txn.request)
    case GiveUp => !w.txn.Idle?
    case Reconfigure(_) => w.txn.Idle?
    case SendNote => w.device.pending.Some?
    case TakeNote(note) => w.txn.Idle? && note in w.notes
    case HearAck => w.device.pending.Some? && w.device.pending.value in w.acked
  }

  // The command reaches the controller's transmitter.
  predicate Transmits(c: Ctrl, command: Command) {
    VersionReadable(command) && ReachesTransmitter(c, command.config, command.patch, Requested(command))
  }

  // The books after one handled command.
  function Record(w: World, device: Device, x: Exchange): World {
    w.(device := device, exchanges := w.exchanges + {x},
       history := w.history[device.unit.ram.version := device.unit.ram],
       sendings := if Transmits(w.device.unit.ram, x.command) then w.sendings + [x.command] else w.sendings,
       changed := w.changed || device.unit.ram != w.device.unit.ram)
  }

  function ServeStep(w: World, command: Command, sent: bool, request: Option<nat>): World {
    var (device, reply) := HandlePost(w.device, command, sent, CALLBACKS);
    Record(w, device, Exchange(request, command, w.device.unit.ram, device.unit.ram, reply))
  }

  // Django puts a POST on the wire.
  function PostRow(w: World, remote: Remote, changes: Patch, row: Row): World {
    w.(requests := w.requests + 1, posts := w.posts[w.requests := CommandFor(remote.config, row, changes)])
  }

  // The transaction's end: a confirmed row is saved, anything else rolls back.
  function Finish(w: World, response: Response): World
    requires !w.txn.Idle?
  {
    match Confirm(w.txn.remote.config, w.txn.row, response, true)
    case Ok(row) => w.(row := row, txn := Idle)
    case Err(_) => w.(txn := Idle)
  }

  // The device a notification names.
  function Named(remote: Remote): Lookup {
    if remote.isAc && remote.named then OneDevice(remote) else NoDevice
  }

  function TakeNoteStep(w: World, note: Report): World {
    match AcceptSync(Named(w.remote), w.row, PayloadOf(note))
    case Err(_) => w
    case Ok(receipt) => w.(row := receipt.row, acked := w.acked + {note})
  }

  function Next(w: World, s: Step): World
    requires Enabled(w, s)
  {
    match s
    case Begin(changes) =>
      PostRow(w, w.remote, changes, w.row)
        .(txn := AwaitFirst(w.remote, changes, w.row, CommandFor(w.remote.config, w.row, changes), w.requests))
    case Serve(command, sent, request) => ServeStep(w, command, sent, request)
    case ServeGet(get) => w.(fetches := w.fetches + {Fetch(get, ReportOf(w.device.unit.ram))})
    case Reboot => w.(device := PowerCycle(w.device), changed := false)
    case FirstAnswer(x) =>
      if IsVersionConflict(PostResponse(x.reply))
      then w.(txn := AwaitCurrent(w.txn.remote, w.txn.changes, w.txn.row, w.txn.posted, w.requests),
              requests := w.requests + 1)
      else Finish(w, PostResponse(x.reply))
    case CurrentAnswer(fetch) =>
      (match Confirm(w.txn.remote.config, w.txn.row, Answered(false, fetch.report), false)
       case Err(_) => w.(txn := Idle)
       case Ok(read) =>
         PostRow(w, w.txn.remote, w.txn.changes, read)
           .(txn := AwaitSecond(w.txn.remote, w.txn.changes, read,
                                CommandFor(w.txn.remote.config, read, w.txn.changes), w.requests)))
    case SecondAnswer(x) => Finish(w, PostResponse(x.reply))
    case GiveUp => w.(txn := Idle)
    case Reconfigure(remote) => w.(remote := remote)
    case SendNote => w.(notes := w.notes + {w.device.pending.value})
    case TakeNote(note) => TakeNoteStep(w, note)
    case HearAck => w.(device := ServiceSync(w.device, true, Some(200)))
  }

  // ------------------------------------------------------------------
  // The invariant
  // ------------------------------------------------------------------

  ghost predicate HeldAt(history: map<nat, Ctrl>, r: Report) {
    r.version in history && ReportOf(history[r.version]) == r
  }

  ghost predicate RowHeld(history: map<nat, Ctrl>, row: Row) {
    row.version in history && history[row.version].state == row.state
  }

  ghost predicate HistoryInv(w: World) {
    && w.device.unit.ram.version in w.history
    && w.history[w.device.unit.ram.version] == w.device.unit.ram
    && forall v :: v in w.history ==> v <= w.device.unit.ram.version && w.history[v].version == v
  }

  ghost predicate ExchangeInv(w: World, x: Exchange) {
    && x.after.version in w.history && w.history[x.after.version] == x.after
    && (x.reply.Accepted? ==>
          && VersionReadable(x.command)
          && x.reply.report == ReportOf(x.after)
          && Fulfils(x.before, x.command.config, x.command.patch, x.after.state))
    && (x.request.Some? ==> x.request.value in w.posts && w.posts[x.request.value] == x.command)
  }

  ghost predicate MessagesInv(w: World) {
    && (forall x :: x in w.exchanges ==> ExchangeInv(w, x))
    && (forall f :: f in w.fetches ==> HeldAt(w.history, f.report))
    && (forall q :: q in w.posts ==> q < w.requests)
    && (forall n :: n in w.notes ==> HeldAt(w.history, n))
    && (forall n :: n in w.acked ==> n.version <= w.row.version)
  }

  ghost predicate TxnInv(w: World) {
    !w.txn.Idle? ==>
      && RowHeld(w.history, w.txn.row) && w.row.version <= w.txn.row.version
      && w.txn.posted == CommandFor(w.txn.remote.config, w.txn.row, w.txn.changes)
      && (!w.txn.AwaitSecond? ==> w.txn.row == w.row)
      && w.txn.request < w.requests
      && (!w.txn.AwaitCurrent? ==> w.txn.request in w.posts && w.posts[w.txn.request] == w.txn.posted)
  }

  ghost predicate MirrorCurrent(w: World) {
    w.row == Row(w.device.unit.ram.version, w.device.unit.ram.state)
  }

  ghost predicate NotificationInv(w: World) {
    && (w.device.pending.Some? ==> w.device.pending.value == ReportOf(w.device.unit.ram))
    && (w.changed && w.device.pending.None? ==> MirrorCurrent(w))
  }

  ghost predicate Inv(w: World) {
    && InStep(w.device.unit)
    && HistoryInv(w)
    && RowHeld(w.history, w.row)
    && MessagesInv(w)
    && TxnInv(w)
    && NotificationInv(w)
  }

  lemma InitInv(remote: Remote)
    ensures Inv(Init(remote))
  {
  }

  // What the rest of the system needs to know about one handled command.
  ghost predicate SoundExchange(d: Device, d': Device, x: Exchange) {
    && InStep(d'.unit)
    && x.before == d.unit.ram && x.after == d'.unit.ram
    && (d'.unit.ram == d.unit.ram ==> d' == d)
    && (d'.unit.ram != d.unit.ram ==> d'.unit.ram.version > d.unit.ram.version && d'.pending.Some?)
    && (d'.pending.Some? ==> d'.pending.value == ReportOf(d'.unit.ram))
    && (x.reply.Accepted? ==>
          && VersionReadable(x.command)
          && x.reply.report == ReportOf(x.after)
          && Fulfils(x.before, x.command.config, x.command.patch, x.after.state))
  }

  lemma HandledSoundly(d: Device, command: Command, sent: bool, request: Option<nat>)
    requires InStep(d.unit)
    requires d.pending.Some? ==> d.pending.value == ReportOf(d.unit.ram)
    ensures
      var (d', reply) := HandlePost(d, command, sent, CALLBACKS);
      SoundExchange(d, d', Exchange(request, command, d.unit.ram, d'.unit.ram, reply))
  {
    PendingIsCurrent(d, command, sent);
    if VersionReadable(command) {
      StaysInStep(d.unit, command.config, command.patch, Requested(command), sent);
      ApplyMeaning(d.unit.ram, command.config, command.patch, Requested(command), sent);
    }
  }

  lemma RecordKeepsMessages(w: World, device: Device, x: Exchange)
    requires Inv(w) && SoundExchange(w.device, device, x)
    requires x.request.Some? ==> x.request.value in w.posts && w.posts[x.request.value] == x.command
    ensures MessagesInv(Record(w, device, x))
  {
  }

  lemma RecordKeepsInv(w: World, device: Device, x: Exchange)
    requires Inv(w) && SoundExchange(w.device, device, x)
    requires x.request.Some? ==> x.request.value in w.posts && w.posts[x.request.value] == x.command
    ensures Inv(Record(w, device, x))
  {
    RecordKeepsMessages(w, device, x);
  }

  lemma ServeKeepsInv(w: World, command: Command, sent: bool, request: Option<nat>)
    requires Inv(w) && Enabled(w, Serve(command, sent, request))
    ensures Inv(ServeStep(w, command, sent, request))
  {
    HandledSoundly(w.device, command, sent, request);
    var (device, reply) := HandlePost(w.device, command, sent, CALLBACKS);
    RecordKeepsInv(w, device, Exchange(request, command, w.device.unit.ram, device.unit.ram, reply));
  }

  lemma TakeNoteKeepsInv(w: World, note: Report)
    requires Inv(w) && w.txn.Idle? && note in w.notes
    ensures Inv(TakeNoteStep(w, note))
  {
  }

  lemma FinishKeepsInv(w: World, x: Exchange)
    requires Inv(w) && !w.txn.Idle? && x in w.exchanges
    ensures Inv(Finish(w, PostResponse(x.reply)))
  {
  }

  lemma HearAckKeepsInv(w: World)
    requires Inv(w) && Enabled(w, HearAck)
    ensures Inv(Next(w, HearAck))
  {
  }

  lemma RebootKeepsInv(w: World)
    requires Inv(w)
    ensures Inv(Next(w, Reboot))
    ensures Next(w, Reboot).device.unit == w.device.unit
  {
  }

  lemma BeginKeepsInv(w: World, changes: Patch)
    requires Inv(w) && Enabled(w, Begin(changes))
    ensures Inv(Next(w, Begin(changes)))
  {
  }

  lemma CurrentAnswerKeepsInv(w: World, fetch: Fetch)
    requires Inv(w) && Enabled(w, CurrentAnswer(fetch))
    ensures Inv(Next(w, CurrentAnswer(fetch)))
  {
    match Confirm(w.txn.remote.config, w.txn.row, Answered(false, fetch.report), false)
    case Err(_) =>
    case Ok(read) => PostedAgainKeepsInv(w, fetch, read);
  }

  lemma PostedAgainKeepsInv(w: World, fetch: Fetch, read: Row)
    requires Inv(w) && Enabled(w, CurrentAnswer(fetch))
    requires Confirm(w.txn.remote.config, w.txn.row, Answered(false, fetch.report), false) == Ok(read)
    ensures
      var t := AwaitSecond(w.txn.remote, w.txn.changes, read, CommandFor(w.txn.remote.config, read, w.txn.changes), w.requests);
      Inv(PostRow(w, w.txn.remote, w.txn.changes, read).(txn := t))
  {
    assert HeldAt(w.history, fetch.report);
  }

  lemma FirstAnswerKeepsInv(w: World, x: Exchange)
    requires Inv(w) && Enabled(w, FirstAnswer(x))
    ensures Inv(Next(w, FirstAnswer(x)))
  {
    FinishKeepsInv(w, x);
  }

  lemma NextKeepsInv(w: World, s: Step)
    requires Inv(w) && Enabled(w, s)
    ensures Inv(Next(w, s))
  {
    match s
    case Begin(changes) => BeginKeepsInv(w, changes);
    case Serve(command, sent, request) => ServeKeepsInv(w, command, sent, request);
    case TakeNote(note) => TakeNoteKeepsInv(w, note);
    case FirstAnswer(x) => FirstAnswerKeepsInv(w, x);
    case CurrentAnswer(fetch) => CurrentAnswerKeepsInv(w, fetch);
    case SecondAnswer(x) => FinishKeepsInv(w, x);
    case HearAck => HearAckKeepsInv(w);
    case Reboot => RebootKeepsInv(w);
    case _ =>
  }

  // What one step may do to versions: the mirror and the controller only move forward, a controller that
  // changes takes a new version, and the history only grows.
  ghost predicate Forward(w: World, w': World) {
    && w.row.version <= w'.row.version
    && w.device.unit.ram.version <= w'.device.unit.ram.version
    && (w.device.unit.ram.version == w'.device.unit.ram.version ==> w.device.unit == w'.device.unit)
    && (forall v :: v in w.history ==> v in w'.history && w'.history[v] == w.history[v])
    && w.requests <= w'.requests
  }

  lemma ServeMovesForward(w: World, command: Command, sent: bool, request: Option<nat>)
    requires Inv(w)
    ensures Forward(w, ServeStep(w, command, sent, request))
  {
    HandledSoundly(w.device, command, sent, request);
  }

  lemma TakeNoteMovesForward(w: World, note: Report)
    requires Inv(w)
    ensures Forward(w, TakeNoteStep(w, note))
  {
  }

  lemma FinishMovesForward(w: World, response: Response)
    requires Inv(w) && !w.txn.Idle?
    ensures Forward(w, Finish(w, response))
  {
  }

  lemma TransactionMovesForward(w: World, s: Step)
    requires Inv(w) && Enabled(w, s) && (s.FirstAnswer? || s.CurrentAnswer? || s.SecondAnswer? || s.Begin?)
    ensures Forward(w, Next(w, s))
  {
    if s.FirstAnswer? || s.SecondAnswer? { FinishMovesForward(w, PostResponse(s.exchange.reply)); }
  }

  lemma NextMovesForward(w: World, s: Step)
    requires Inv(w) && Enabled(w, s)
    ensures Forward(w, Next(w, s))
  {
    match s
    case Begin(_) => TransactionMovesForward(w, s);
    case Serve(command, sent, request) => ServeMovesForward(w, command, sent, request);
    case FirstAnswer(_) => TransactionMovesForward(w, s);
    case CurrentAnswer(_) => TransactionMovesForward(w, s);
    case SecondAnswer(_) => TransactionMovesForward(w, s);
    case TakeNote(note) => TakeNoteMovesForward(w, note);
    case Reboot => RebootKeepsInv(w);
    case _ =>
  }

  // ------------------------------------------------------------------
  // Runs
  // ------------------------------------------------------------------

  ghost predicate IsRun(ws: seq<World>, ss: seq<Step>) {
    && |ws| == |ss| + 1
    && ws[0] == Init(ws[0].remote)
    && forall i :: 0 <= i < |ss| ==> Enabled(ws[i], ss[i]) && ws[i + 1] == Next(ws[i], ss[i])
  }

  lemma {:induction false} RunInv(ws: seq<World>, ss: seq<Step>, i: nat)
    requires IsRun(ws, ss) && i < |ws|
    ensures Inv(ws[i])
  {
    if i == 0 {
      InitInv(ws[0].remote);
    } else {
      RunInv(ws, ss, i - 1);
      NextKeepsInv(ws[i - 1], ss[i - 1]);
    }
  }

  lemma RunStep(ws: seq<World>, ss: seq<Step>, k: nat)
    requires IsRun(ws, ss) && k < |ss|
    ensures Enabled(ws[k], ss[k]) && ws[k + 1] == Next(ws[k], ss[k])
  {
  }

  lemma RunStepMovesForward(ws: seq<World>, ss: seq<Step>, k: nat)
    requires IsRun(ws, ss) && k < |ss|
    ensures Forward(ws[k], ws[k + 1])
  {
    var w, s := ws[k], ss[k];
    assert Enabled(w, s) && ws[k + 1] == Next(w, s);
    RunInv(ws, ss, k);
    NextMovesForward(w, s);
  }

  lemma {:induction false} RunMovesForward(ws: seq<World>, ss: seq<Step>, i: nat, j: nat)
    requires IsRun(ws, ss) && i <= j < |ws|
    ensures ws[i].row.version <= ws[j].row.version
    ensures ws[i].device.unit.ram.version <= ws[j].device.unit.ram.version
    decreases j
  {
    if i < j {
      var k := j - 1;
      RunMovesForward(ws, ss, i, k);
      RunStepMovesForward(ws, ss, k);
      assert ws[j] == ws[k + 1];
    }
  }

  lemma NewInHistory(w: World, s: Step, v: nat)
    requires Enabled(w, s) && v in Next(w, s).history && v !in w.history
    ensures Next(w, s).history[v] == Next(w, s).device.unit.ram && v == Next(w, s).device.unit.ram.version
  {
  }

  // The bookkeeping is honest: what the history records was really held at some point of the run.
  lemma {:induction false} HistoryWasHeld(ws: seq<World>, ss: seq<Step>, i: nat, v: nat) returns (k: nat)
    requires IsRun(ws, ss) && i < |ws|
    requires v in ws[i].history
    ensures k <= i && ws[k].device.unit.ram == ws[i].history[v] && ws[k].device.unit.ram.version == v
    decreases i
  {
    RunInv(ws, ss, i);
    if i > 0 && v in ws[i - 1].history {
      k := HistoryWasHeld(ws, ss, i - 1, v);
      RunStepMovesForward(ws, ss, i - 1);
    } else {
      k := i;
      if i > 0 {
        RunStep(ws, ss, i - 1);
        NewInHistory(ws[i - 1], ss[i - 1], v);
      }
    }
  }

  // Faithful mirror: at every point of every run, Django's row is a (version, state) pair that the
  // controller really held at or before that point.
  lemma FaithfulMirror(ws: seq<World>, ss: seq<Step>, i: nat)
    requires IsRun(ws, ss) && i < |ws|
    ensures exists k :: 0 <= k <= i && ws[i].row == Row(ws[k].device.unit.ram.version, ws[k].device.unit.ram.state)
    ensures ws[i].row.version <= ws[i].device.unit.ram.version
    ensures ws[i].row.version == 0 ==> ws[i].row == NEW_ROW
  {
    RunInv(ws, ss, i);
    var k := HistoryWasHeld(ws, ss, i, ws[i].row.version);
    assert ws[i].row == Row(ws[k].device.unit.ram.version, ws[k].device.unit.ram.state);
    if ws[i].row.version == 0 {
      var k0 := HistoryWasHeld(ws, ss, i, 0);
      VersionNames(ws, ss, 0, k0);
    }
  }

  // A version names one controller value for the whole run, across reboots.
  lemma {:induction false} VersionNames(ws: seq<World>, ss: seq<Step>, i: nat, j: nat)
    requires IsRun(ws, ss) && i <= j < |ws|
    requires ws[i].device.unit.ram.version == ws[j].device.unit.ram.version
    ensures ws[i].device.unit.ram == ws[j].device.unit.ram
    decreases j
  {
    if i < j {
      var k := j - 1;
      RunMovesForward(ws, ss, i, k);
      RunStepMovesForward(ws, ss, k);
      assert ws[j] == ws[k + 1];
      assert ws[i].device.unit.ram.version == ws[k].device.unit.ram.version;
      VersionNames(ws, ss, i, k);
    }
  }

  // Notification convergence: a pending notification is always the controller's present report, and unless
  // one is pending or nothing changed since boot, the mirror equals the controller exactly.
  lemma NotificationConverges(ws: seq<World>, ss: seq<Step>, i: nat)
    requires IsRun(ws, ss) && i < |ws|
    ensures ws[i].device.pending.Some? ==> ws[i].device.pending.value == ReportOf(ws[i].device.unit.ram)
    ensures ws[i].changed && ws[i].device.pending.None? ==>
              ws[i].row == Row(ws[i].device.unit.ram.version, ws[i].device.unit.ram.state)
  {
    RunInv(ws, ss, i);
  }

  // Every reachable controller is sound and a power cycle at any point restores it exactly.
  lemma RebootRestores(ws: seq<World>, ss: seq<Step>, i: nat)
    requires IsRun(ws, ss) && i < |ws|
    ensures Healthy(ws[i].device.unit.ram)
    ensures PowerCycle(ws[i].device).unit == ws[i].device.unit
  {
    RunInv(ws, ss, i);
  }

  // ------------------------------------------------------------------
  // At most once
  // ------------------------------------------------------------------

  ghost predicate SpentIn(w: World, command: Command, n: nat) {
    Spent(w.device.unit.ram, command.config, command.patch, n)
  }

  // Only a handled command changes RAM and flash.
  lemma OthersKeepUnit(w: World, s: Step)
    requires Inv(w) && Enabled(w, s) && !s.Serve?
    ensures Next(w, s).device.unit == w.device.unit
  {
  }

  lemma SpentThroughServe(w: World, s: Step, command: Command, n: nat)
    requires Inv(w) && Enabled(w, s) && s.Serve? && SpentIn(w, command, n)
    ensures SpentIn(Next(w, s), command, n)
  {
  }

  lemma SpentThroughStep(w: World, s: Step, command: Command, n: nat)
    requires Inv(w) && Enabled(w, s) && SpentIn(w, command, n)
    ensures SpentIn(Next(w, s), command, n)
  {
    if s.Serve? { SpentThroughServe(w, s, command, n); } else { OthersKeepUnit(w, s); }
  }

  lemma {:induction false} SpentThroughRun(ws: seq<World>, ss: seq<Step>, i: nat, j: nat, command: Command, n: nat)
    requires IsRun(ws, ss) && i <= j < |ws|
    requires SpentIn(ws[i], command, n)
    ensures SpentIn(ws[j], command, n)
    decreases j
  {
    if i < j {
      var k := j - 1;
      SpentThroughRun(ws, ss, i, k, command, n);
      RunInv(ws, ss, k);
      RunStep(ws, ss, k);
      SpentThroughStep(ws[k], ss[k], command, n);
    }
  }

  lemma CommitSpends(w: World, s: Step, command: Command)
    requires Inv(w) && s.Serve? && s.command == command && command.version.Given? && Enabled(w, s)
    requires Next(w, s).device.unit != w.device.unit
    ensures SpentIn(Next(w, s), command, command.version.value)
  {
    StaysInStep(w.device.unit, command.config, command.patch, Requested(command), s.sent);
    CommittedIsSpent(w.device.unit.ram, command.config, command.patch, command.version.value, s.sent);
  }

  lemma SpentServeIsIdle(w: World, s: Step, command: Command, n: nat)
    requires Inv(w) && s.Serve? && s.command == command && command.version == Given(n) && Enabled(w, s)
    requires SpentIn(w, command, n)
    ensures Next(w, s).device == w.device && !Transmits(w.device.unit.ram, command) && Next(w, s).sendings == w.sendings
  {
    SpentHasNoEffect(w.device.unit.ram, command.config, command.patch, n, s.sent);
    StaysInStep(w.device.unit, command.config, command.patch, Requested(command), s.sent);
  }

  // At most once: whatever happens between two copies of a versioned command, once one copy has changed
  // the controller no later copy changes it, bumps its version or reaches the transmitter.
  lemma AtMostOnce(ws: seq<World>, ss: seq<Step>, i: nat, j: nat, command: Command)
    requires IsRun(ws, ss) && i < j < |ss|
    requires command.version.Given?
    requires ss[i].Serve? && ss[i].command == command && ws[i + 1].device.unit != ws[i].device.unit
    requires ss[j].Serve? && ss[j].command == command
    ensures ws[j + 1].device == ws[j].device
    ensures !Transmits(ws[j].device.unit.ram, command) && ws[j + 1].sendings == ws[j].sendings
  {
    RunInv(ws, ss, i);
    RunStep(ws, ss, i);
    CommitSpends(ws[i], ss[i], command);
    SpentThroughRun(ws, ss, i + 1, j, command, command.version.value);
    RunInv(ws, ss, j);
    RunStep(ws, ss, j);
    SpentServeIsIdle(ws[j], ss[j], command, command.version.value);
  }

  // What a client can work out before it sends a copy: will it reach the transmitter?
  predicate Effective(c: Ctrl, command: Command) {
    && VersionReadable(command) && Supported(command.config)
    && Acceptable(CapabilitiesFor(command.config.protocol), command.patch)
    && (command.version.Given? ==> command.version.value >= c.version)
    && c.version != UINT32_MAX && !NoOp(c, command.config, command.patch)
  }

  // In every run a handled command is transmitted exactly when it is effective, and then takes effect exactly when
  // the transmission succeeds.
  lemma TransmittedIff(ws: seq<World>, ss: seq<Step>, j: nat)
    requires IsRun(ws, ss) && j < |ss| && ss[j].Serve?
    ensures
      var command := ss[j].command;
      var effective := Effective(ws[j].device.unit.ram, command);
      && ws[j + 1].sendings == ws[j].sendings + (if effective then [command] else [])
      && (ws[j + 1].device.unit != ws[j].device.unit <==> effective && ss[j].sent)
  {
    RunInv(ws, ss, j);
    var command, c := ss[j].command, ws[j].device.unit.ram;
    assert ws[j + 1] == ServeStep(ws[j], command, ss[j].sent, ss[j].request);
    assert ws[j].sendings + [] == ws[j].sendings;
    if VersionReadable(command) {
      ReachesTransmitterIff(c, command.config, command.patch, Requested(command));
      StaysInStep(ws[j].device.unit, command.config, command.patch, Requested(command), ss[j].sent);
      TransmissionDecidesOnlyCommit(c, command.config, command.patch, Requested(command));
      ApplyMeaning(c, command.config, command.patch, Requested(command), ss[j].sent);
    }
  }

  // Once a copy of a versioned command was transmitted, a later copy is transmitted again if and only if the earlier
  // transmission failed and the command is still effective; so of all transmissions of one versioned command only the
  // last can have succeeded.
  lemma RetransmittedIff(ws: seq<World>, ss: seq<Step>, i: nat, j: nat, command: Command)
    requires IsRun(ws, ss) && i < j < |ss| && command.version.Given?
    requires ss[i].Serve? && ss[i].command == command && Effective(ws[i].device.unit.ram, command)
    requires ss[j].Serve? && ss[j].command == command
    ensures ws[j + 1].sendings != ws[j].sendings <==> !ss[i].sent && Effective(ws[j].device.unit.ram, command)
  {
    TransmittedIff(ws, ss, i);
    TransmittedIff(ws, ss, j);
    if ss[i].sent {
      AtMostOnce(ws, ss, i, j, command);
    }
  }

  // Until a controller's record changes, every failed copy is followed by another transmission.
  lemma FailedCopyIsTransmittedAgain(ws: seq<World>, ss: seq<Step>, i: nat, j: nat, command: Command)
    requires IsRun(ws, ss) && i < j < |ss|
    requires ss[i].Serve? && ss[i].command == command && Effective(ws[i].device.unit.ram, command) && !ss[i].sent
    requires ss[j].Serve? && ss[j].command == command && ws[j].device.unit == ws[i].device.unit
    ensures ws[i + 1].device == ws[i].device
    ensures ws[j + 1].sendings == ws[j].sendings + [command]
  {
    RunInv(ws, ss, i);
    TransmittedIff(ws, ss, i);
    TransmittedIff(ws, ss, j);
    HandledSoundly(ws[i].device, command, false, ss[i].request);
  }

  ghost predicate TakesEffect(w: World, w': World, s: Step, command: Command) {
    s.Serve? && s.command == command && w'.device.unit != w.device.unit
  }

  ghost predicate TwoTakeEffect(ws: seq<World>, ss: seq<Step>, i: nat, j: nat, command: Command) {
    && IsRun(ws, ss) && i < j < |ss|
    && TakesEffect(ws[i], ws[i + 1], ss[i], command) && TakesEffect(ws[j], ws[j + 1], ss[j], command)
  }

  ghost predicate CanRepeat(command: Command) {
    exists ws: seq<World>, ss: seq<Step>, i: nat, j: nat :: TwoTakeEffect(ws, ss, i, j, command)
  }

  lemma ServeCommits(w: World, command: Command)
    requires Inv(w) && command.version.Absent?
    requires Apply(w.device.unit.ram, command.config, command.patch, None, true).1 == Applied
    ensures
      var w' := ServeStep(w, command, true, None);
      && Inv(w') && w'.device.unit.ram == Apply(w.device.unit.ram, command.config, command.patch, None, true).0
      && w'.device.unit != w.device.unit
  {
    ServeKeepsInv(w, command, true, None);
    ApplyMeaning(w.device.unit.ram, command.config, command.patch, None, true);
  }

  lemma ReplayTakesEffect(w0: World, command: Command, other: Config)
    requires Inv(w0) && !w0.device.unit.ram.configured
    requires command.version.Absent? && Supported(command.config)
    requires Acceptable(CapabilitiesFor(command.config.protocol), command.patch)
    requires Supported(other) && other != command.config
    ensures
      var w1 := ServeStep(w0, command, true, None);
      var w2 := ServeStep(w1, Command(other, NOTHING, Absent), true, None);
      var w3 := ServeStep(w2, command, true, None);
      w1.device.unit != w0.device.unit && w3.device.unit != w2.device.unit
  {
    var between := Command(other, NOTHING, Absent);
    UnversionedCopiesRepeat(w0.device.unit.ram, command.config, command.patch, other);
    ServeCommits(w0, command);
    var w1 := ServeStep(w0, command, true, None);
    ServeCommits(w1, between);
    ServeCommits(ServeStep(w1, between, true, None), command);
  }

  lemma ServeIsStep(w: World, command: Command)
    ensures Enabled(w, Serve(command, true, None)) && Next(w, Serve(command, true, None)) == ServeStep(w, command, true, None)
  {
  }

  lemma ThreeSteps(ws: seq<World>, ss: seq<Step>)
    requires |ws| == 4 && |ss| == 3 && ws[0] == Init(ws[0].remote)
    requires Enabled(ws[0], ss[0]) && ws[1] == Next(ws[0], ss[0])
    requires Enabled(ws[1], ss[1]) && ws[2] == Next(ws[1], ss[1])
    requires Enabled(ws[2], ss[2]) && ws[3] == Next(ws[2], ss[2])
    ensures IsRun(ws, ss)
  {
  }

  lemma ReplayWorlds(command: Command, other: Config, remote: Remote) returns (ws: seq<World>)
    requires command.version.Absent? && Supported(command.config)
    requires Acceptable(CapabilitiesFor(command.config.protocol), command.patch)
    requires Supported(other) && other != command.config
    ensures |ws| == 4 && ws[0] == Init(remote)
    ensures ws[1] == ServeStep(ws[0], command, true, None)
    ensures ws[2] == ServeStep(ws[1], Command(other, NOTHING, Absent), true, None)
    ensures ws[3] == ServeStep(ws[2], command, true, None)
    ensures ws[1].device.unit != ws[0].device.unit && ws[3].device.unit != ws[2].device.unit
  {
    var w0 := Init(remote);
    var w1 := ServeStep(w0, command, true, None);
    var w2 := ServeStep(w1, Command(other, NOTHING, Absent), true, None);
    InitInv(remote);
    ReplayTakesEffect(w0, command, other);
    ws := [w0, w1, w2, ServeStep(w2, command, true, None)];
  }

  // The replay: a copy, another configuration, and a copy again, from a controller fresh from the factory.
  lemma ReplayRun(command: Command, other: Config, remote: Remote) returns (ws: seq<World>, ss: seq<Step>)
    requires command.version.Absent? && Supported(command.config)
    requires Acceptable(CapabilitiesFor(command.config.protocol), command.patch)
    requires Supported(other) && other != command.config
    ensures TwoTakeEffect(ws, ss, 0, 2, command)
  {
    var between := Command(other, NOTHING, Absent);
    ws := ReplayWorlds(command, other, remote);
    ss := [Serve(command, true, None), Serve(between, true, None), Serve(command, true, None)];
    ServeIsStep(ws[0], command);
    ServeIsStep(ws[1], between);
    ServeIsStep(ws[2], command);
    ThreeSteps(ws, ss);
  }

  // Any supported configuration can be replaced by another one.
  function Another(config: Config): (other: Config)
    ensures Supported(other) && other != config
  {
    if config == Config(GreeBrand, Gree, Yaw1f) then Config(MideaBrand, Midea, DefaultModel)
    else Config(GreeBrand, Gree, Yaw1f)
  }

  // Of the commands the controller can carry out, exactly those without a version can take effect twice.
  lemma RepeatsIff(command: Command, remote: Remote)
    requires VersionReadable(command) && Supported(command.config)
    requires Acceptable(CapabilitiesFor(command.config.protocol), command.patch)
    ensures CanRepeat(command) <==> command.version.Absent?
  {
    if command.version.Absent? {
      var ws, ss := ReplayRun(command, Another(command.config), remote);
      assert TwoTakeEffect(ws, ss, 0, 2, command);
    } else if CanRepeat(command) {
      var ws: seq<World>, ss: seq<Step>, i: nat, j: nat :| TwoTakeEffect(ws, ss, i, j, command);
      AtMostOnce(ws, ss, i, j, command);
    }
  }

  // ------------------------------------------------------------------
  // No lost update
  // ------------------------------------------------------------------

  lemma {:induction false} RunRequestsGrow(ws: seq<World>, ss: seq<Step>, i: nat, j: nat)
    requires IsRun(ws, ss) && i <= j < |ws|
    ensures ws[i].requests <= ws[j].requests
    decreases j
  {
    if i < j {
      var k := j - 1;
      RunRequestsGrow(ws, ss, i, k);
      RunStepMovesForward(ws, ss, k);
    }
  }

  lemma NewExchange(w: World, s: Step, x: Exchange)
    requires Enabled(w, s) && x in Next(w, s).exchanges && x !in w.exchanges
    ensures s.Serve? && s.command == x.command && s.request == x.request
    ensures w.device.unit.ram == x.before && Next(w, s).device.unit.ram == x.after
  {
  }

  // Every answer on the wire belongs to a command that the controller really handled in this run.
  lemma {:induction false} ExchangeHappened(ws: seq<World>, ss: seq<Step>, i: nat, x: Exchange) returns (k: nat)
    requires IsRun(ws, ss) && i < |ws| && x in ws[i].exchanges
    ensures k < i && ss[k].Serve? && ss[k].command == x.command && ss[k].request == x.request
    ensures ws[k].device.unit.ram == x.before && ws[k + 1].device.unit.ram == x.after
    decreases i
  {
    if x in ws[i - 1].exchanges {
      k := ExchangeHappened(ws, ss, i - 1, x);
    } else {
      k := i - 1;
      NewExchange(ws[k], ss[k], x);
    }
  }

  // A transaction under way since step `b`.
  ghost predicate Underway(ws: seq<World>, ss: seq<Step>, b: nat, i: nat) {
    && b < i < |ws| && b < |ss|
    && ss[b].Begin? && !ws[i].txn.Idle? && ws[i].txn.changes == ss[b].changes
    && ws[i].txn.remote == ws[b].remote && ws[b].requests <= ws[i].txn.request
    && (forall m :: b < m <= i ==> !ws[m].txn.Idle?)
  }

  // A transaction begins with its own changes and a new request, and keeps them until it ends.
  lemma TxnGoesOn(w: World, s: Step)
    requires Inv(w) && Enabled(w, s) && !Next(w, s).txn.Idle?
    ensures
      var t := Next(w, s).txn;
      if w.txn.Idle? then s.Begin? && t.changes == s.changes && t.remote == w.remote && t.request == w.requests
      else t.changes == w.txn.changes && t.remote == w.txn.remote && w.txn.request <= t.request
  {
  }

  lemma {:induction false} TxnBegan(ws: seq<World>, ss: seq<Step>, i: nat) returns (b: nat)
    requires IsRun(ws, ss) && i < |ws| && !ws[i].txn.Idle?
    ensures Underway(ws, ss, b, i)
    decreases i
  {
    var k := i - 1;
    var w, s := ws[k], ss[k];
    RunStep(ws, ss, k);
    RunInv(ws, ss, k);
    TxnGoesOn(w, s);
    b := k;
    if !w.txn.Idle? {
      b := TxnBegan(ws, ss, k);
    }
  }

  // The step saves a command's result.
  ghost predicate Saves(w: World, s: Step) {
    && (s.FirstAnswer? || s.SecondAnswer?)
    && Enabled(w, s)
    && Confirm(w.txn.remote.config, w.txn.row, PostResponse(s.exchange.reply), true).Ok?
  }

  // No lost update: when a command transaction saves, the controller handled that transaction's own POST at a point
  // `k` between the transaction's beginning `b` and now; the saved row is what the controller held after it, with
  // every requested field as requested and every other field as the controller itself had it right before (or at
  // the default when the configuration changed), however stale the mirror was.
  lemma NoLostUpdate(ws: seq<World>, ss: seq<Step>, i: nat) returns (b: nat, k: nat)
    requires IsRun(ws, ss) && i < |ss| && Saves(ws[i], ss[i])
    ensures Underway(ws, ss, b, i) && b < k < i
    ensures ss[k].Serve? && ss[k].command == ws[i].txn.posted && ss[k].request == Some(ws[i].txn.request)
    ensures
      var before := ws[k].device.unit.ram;
      var after := ws[k + 1].device.unit.ram;
      && ws[i + 1].txn.Idle?
      && ws[i + 1].row == Row(after.version, after.state)
      && after.config == ws[b].remote.config
      && Fulfils(before, ws[b].remote.config, ss[b].changes, ws[i + 1].row.state)
  {
    RunInv(ws, ss, i);
    var x := ss[i].exchange;
    b := TxnBegan(ws, ss, i);
    k := ExchangeHappened(ws, ss, i, x);
    assert ExchangeInv(ws[i], x);
    RunInv(ws, ss, k);
    assert Enabled(ws[k], ss[k]);
    if k <= b {
      RunRequestsGrow(ws, ss, k, b);
    }
  }

  // Every other way for a command transaction to move or end leaves the mirror row as it was.
  lemma OtherwiseUnchanged(w: World, s: Step)
    requires Enabled(w, s) && !w.txn.Idle? && !Saves(w, s)
    ensures Next(w, s).row == w.row
  {
  }

  // ------------------------------------------------------------------
  // A command that nothing disturbs, step by step
  // ------------------------------------------------------------------

  // A sequence of steps from one world to another.
  ghost predicate Leads(w: World, ss: seq<Step>, w': World)
    decreases |ss|
  {
    if ss == [] then w == w' else Enabled(w, ss[0]) && Leads(Next(w, ss[0]), ss[1..], w')
  }

  lemma LeadsOn(w: World, s: Step, ss: seq<Step>, w': World)
    requires Enabled(w, s) && Leads(Next(w, s), ss, w')
    ensures Leads(w, [s] + ss, w')
  {
    assert ([s] + ss)[1..] == ss;
  }

  // A POST on the wire is handled at once, and its answer is there for the transaction.
  lemma Answers(w: World, sent: bool) returns (x: Exchange, w': World)
    requires Inv(w) && (w.txn.AwaitFirst? || w.txn.AwaitSecond?)
    ensures Enabled(w, Serve(w.txn.posted, sent, Some(w.txn.request)))
    ensures w' == Next(w, Serve(w.txn.posted, sent, Some(w.txn.request))) && Inv(w')
    ensures w'.txn == w.txn && w'.row == w.row && w'.remote == w.remote && w'.requests == w.requests
    ensures (w'.device, x.reply) == HandlePost(w.device, w.txn.posted, sent, true)
    ensures x in w'.exchanges && x.request == Some(w.txn.request)
  {
    var (device, reply) := HandlePost(w.device, w.txn.posted, sent, CALLBACKS);
    x := Exchange(Some(w.txn.request), w.txn.posted, w.device.unit.ram, device.unit.ram, reply);
    w' := ServeStep(w, w.txn.posted, sent, Some(w.txn.request));
    ServeKeepsInv(w, w.txn.posted, sent, Some(w.txn.request));
  }

  // From the second POST on.
  lemma SecondHalf(w: World, sent: bool) returns (ss: seq<Step>, w': World)
    requires Inv(w) && w.txn.AwaitSecond?
    ensures Leads(w, ss, w') && w'.txn.Idle?
    ensures
      var (after, reply) := HandlePost(w.device, w.txn.posted, sent, true);
      var result := Confirm(w.txn.remote.config, w.txn.row, PostResponse(reply), true);
      w'.device == after && w'.row == if result.Ok? then result.value else w.row
  {
    var x, w1 := Answers(w, sent);
    w' := Next(w1, SecondAnswer(x));
    LeadsOn(w1, SecondAnswer(x), [], w');
    LeadsOn(w, Serve(w.txn.posted, sent, Some(w.txn.request)), [SecondAnswer(x)], w');
    ss := [Serve(w.txn.posted, sent, Some(w.txn.request)), SecondAnswer(x)];
  }

  // From the GET after a conflict on.
  lemma AfterConflict(w: World, sent: bool) returns (ss: seq<Step>, w': World)
    requires Inv(w) && w.txn.AwaitCurrent? && w.device.unit.ram.configured
    ensures Leads(w, ss, w') && w'.txn.Idle?
    ensures
      var t := w.txn;
      var read := Confirm(t.remote.config, t.row, GetResponse(HandleGet(w.device)), false);
      if read.Err? then w'.device == w.device && w'.row == w.row
      else
        var (after, reply) := HandlePost(w.device, CommandFor(t.remote.config, read.value, t.changes), sent, true);
        var result := Confirm(t.remote.config, read.value, PostResponse(reply), true);
        w'.device == after && w'.row == if result.Ok? then result.value else w.row
  {
    var get, fetch := ServeGet(w.txn.request), Fetch(w.txn.request, ReportOf(w.device.unit.ram));
    NextKeepsInv(w, get);
    var w1 := Next(w, get);
    NextKeepsInv(w1, CurrentAnswer(fetch));
    var w2 := Next(w1, CurrentAnswer(fetch));
    var rest;
    if w2.txn.Idle? {
      rest, w' := [], w2;
    } else {
      rest, w' := SecondHalf(w2, sent);
    }
    LeadsOn(w1, CurrentAnswer(fetch), rest, w');
    LeadsOn(w, get, [CurrentAnswer(fetch)] + rest, w');
    ss := [get] + ([CurrentAnswer(fetch)] + rest);
  }

  // The protocol can always be run to the undisturbed end.
  lemma UndisturbedRun(w: World, changes: Patch, sent: bool) returns (ss: seq<Step>, w': World)
    requires Inv(w) && Enabled(w, Begin(changes))
    ensures Leads(w, ss, w') && w'.txn.Idle?
    ensures
      var (after, result) := Undisturbed(w.device, w.remote, w.row, changes, sent);
      w'.device == after && w'.row == if result.Ok? then result.value else w.row
  {
    NextKeepsInv(w, Begin(changes));
    var rest;
    rest, w' := AfterBegin(w, changes, sent);
    LeadsOn(w, Begin(changes), rest, w');
    ss := [Begin(changes)] + rest;
  }

  lemma AfterBegin(w: World, changes: Patch, sent: bool) returns (ss: seq<Step>, w': World)
    requires Inv(w) && Enabled(w, Begin(changes)) && Inv(Next(w, Begin(changes)))
    ensures Leads(Next(w, Begin(changes)), ss, w') && w'.txn.Idle?
    ensures
      var (after, result) := Undisturbed(w.device, w.remote, w.row, changes, sent);
      w'.device == after && w'.row == if result.Ok? then result.value else w.row
  {
    var w1 := Next(w, Begin(changes));
    var first, w2 := FirstHalf(w1, sent);
    if w2.txn.Idle? {
      ss, w' := first, w2;
    } else {
      ConflictMeansConfigured(w1, sent);
      var rest;
      rest, w' := AfterConflict(w2, sent);
      LeadsJoin(w1, first, w2, rest, w');
      ss := first + rest;
    }
  }

  lemma {:induction false} LeadsJoin(w: World, ss: seq<Step>, v: World, ts: seq<Step>, w': World)
    requires Leads(w, ss, v) && Leads(v, ts, w')
    ensures Leads(w, ss + ts, w')
    decreases |ss|
  {
    if ss == [] {
      assert ss + ts == ts;
    } else {
      assert (ss + ts)[0] == ss[0] && (ss + ts)[1..] == ss[1..] + ts;
      LeadsJoin(Next(w, ss[0]), ss[1..], v, ts, w');
    }
  }

  // The first POST and its answer.
  lemma FirstHalf(w: World, sent: bool) returns (ss: seq<Step>, w': World)
    requires Inv(w) && w.txn.AwaitFirst?
    ensures Leads(w, ss, w') && Inv(w')
    ensures
      var t := w.txn;
      var (after, reply) := HandlePost(w.device, t.posted, sent, true);
      var result := Confirm(t.remote.config, t.row, PostResponse(reply), true);
      && w'.device == after
      && if IsVersionConflict(PostResponse(reply))
         then w'.txn == AwaitCurrent(t.remote, t.changes, t.row, t.posted, w.requests) && w'.row == w.row
         else w'.txn.Idle? && w'.row == if result.Ok? then result.value else w.row
  {
    var x, w1 := Answers(w, sent);
    NextKeepsInv(w1, FirstAnswer(x));
    w' := Next(w1, FirstAnswer(x));
    var serve := Serve(w.txn.posted, sent, Some(w.txn.request));
    LeadsOn(w1, FirstAnswer(x), [], w');
    LeadsOn(w, serve, [FirstAnswer(x)], w');
    ss := [serve, FirstAnswer(x)];
  }

  lemma ConflictMeansConfigured(w: World, sent: bool)
    requires Inv(w) && w.txn.AwaitFirst?
    requires IsVersionConflict(PostResponse(HandlePost(w.device, w.txn.posted, sent, true).1))
    ensures HandlePost(w.device, w.txn.posted, sent, true).0 == w.device && w.device.unit.ram.configured
  {
    PostReplyIff(w.device, w.txn.posted, sent, true);
  }

  // So a command can be brought to succeed exactly as foreseen: then the row is the controller's with what was asked
  // for, and otherwise it is as it was.
  lemma UndisturbedRunSucceedsIff(w: World, changes: Patch, sent: bool) returns (ss: seq<Step>, w': World)
    requires Inv(w) && Enabled(w, Begin(changes))
    ensures Leads(w, ss, w') && w'.txn.Idle?
    ensures
      var c, after := w.device.unit.ram, w'.device.unit.ram;
      if WillSucceed(c, w.remote, w.row, changes, sent)
      then w'.row == Row(after.version, after.state) && after.config == w.remote.config
           && Fulfils(c, w.remote.config, changes, w'.row.state)
      else w'.row == w.row
  {
    ss, w' := UndisturbedRun(w, changes, sent);
    UndisturbedSucceedsIff(w.device, w.remote, w.row, changes, sent);
  }
}
