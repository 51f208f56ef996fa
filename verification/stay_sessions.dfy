/**
 The guest stay and its realtime endpoints: sessions that are opened, closed, expired and reset,
 messages and tool calls that are admitted only for the current stay, and tool calls that are
 reserved in one transaction, executed outside it and stored in another, with crashes anywhere
 in between. Transactions run one after another.
 */
module StaySessions {
  import opened Prelude

  const TTL := 900
  const TOOL_LIMIT := 5
  const IN_PROGRESS := "tool_in_progress"

  datatype SessionState = Active | Closed | WasReset | Expired
  datatype Session = Session(stay: nat, state: SessionState, expiresAt: int)

  datatype Role = User | Assistant | Tool

  // One stored message. `call` is empty for messages that are not tool calls.
  datatype Row = Row(stay: nat, request: nat, role: Role, call: string, event: Option<string>, content: string)

  // A tool request that has made its reservation: executed yet, and with what result; stored yet.
  datatype Job = Job(stay: nat, request: nat, call: string, result: Option<string>, stored: bool)

  datatype World = World(
    stay: nat,                    // current_stay_id; stays are numbered as they are drawn
    loaded: set<nat>,             // stays read by requests that have not used them yet
    sessions: map<nat, Session>, nextSession: nat,
    rows: map<nat, Row>, nextRow: nat,
    jobs: map<nat, Job>,          // by reservation row
    executed: seq<(nat, string)>) // every execution of a realtime tool: stay and call id

  const INITIAL := World(0, {}, map[], 0, map[], 0, map[], [])

  datatype Identity = Identity(session: nat, stay: nat)

  datatype Denial = InvalidSession | StayExpired | SessionExpired
  datatype Answer = Denied(why: Denial) | Replayed(content: string) | LimitReached | Reserved(row: nat)
    | Inserted(row: nat) | Duplicate

  // ------------------------------------------------------------------
  // Transactions
  // ------------------------------------------------------------------

  function SetState(w: World, id: nat, state: SessionState): World
    requires id in w.sessions
  {
    w.(sessions := w.sessions[id := w.sessions[id].(state := state)])
  }

  predicate Known(w: World, who: Identity) {
    who.session in w.sessions && w.sessions[who.session].stay == who.stay && w.sessions[who.session].state == Active
  }

  // The gate of every realtime endpoint. A refusal may also retire the session.
  function Validate(w: World, who: Identity, now: int): (World, Option<Denial>) {
    if !Known(w, who) then (w, Some(InvalidSession))
    else if w.stay != who.stay then (SetState(w, who.session, WasReset), Some(StayExpired))
    else if w.sessions[who.session].expiresAt <= now then (SetState(w, who.session, Expired), Some(SessionExpired))
    else (w.(sessions := w.sessions[who.session := w.sessions[who.session].(expiresAt := now + TTL)]), None)
  }

  function Insert(w: World, row: Row): World {
    w.(rows := w.rows[w.nextRow := row], nextRow := w.nextRow + 1)
  }

  predicate EventTaken(w: World, stay: nat, event: Option<string>) {
    event.Some? && exists id :: id in w.rows && w.rows[id].stay == stay && w.rows[id].event == event
  }

  function PostMessage(w: World, who: Identity, request: nat, role: Role, event: Option<string>, content: string, now: int)
    : (World, Answer)
  {
    var (w1, denial) := Validate(w, who, now);
    if denial.Some? then (w1, Denied(denial.value))
    else if EventTaken(w1, who.stay, event) then (w1, Duplicate)
    else (Insert(w1, Row(who.stay, request, role, "", event, content)), Inserted(w1.nextRow))
  }

  // The rows that make a call a duplicate, or count against the limit.
  function ToolRows(w: World, stay: nat, request: nat): set<nat> {
    set id | id in w.rows && w.rows[id].stay == stay && w.rows[id].request == request && w.rows[id].role == Tool
  }

  function CallRows(w: World, stay: nat, call: string): set<nat> {
    set id | id in w.rows && w.rows[id].stay == stay && w.rows[id].call == call
  }

  // Tool call ids are unique in a stay.
  ghost predicate CallsUnique(w: World) {
    forall i, j :: i in w.rows && j in w.rows && i != j && w.rows[i].call != "" ==>
      (w.rows[i].stay, w.rows[i].call) != (w.rows[j].stay, w.rows[j].call)
  }

  // The reservation row keeps every other request with this call id out.
  function Reserve(w: World, stay: nat, request: nat, call: string): World {
    Insert(w, Row(stay, request, Tool, call, None, IN_PROGRESS))
      .(jobs := w.jobs[w.nextRow := Job(stay, request, call, None, false)])
  }

  // An admitted tool request: replay, refuse or reserve.
  ghost function Admit(w: World, stay: nat, request: nat, call: string): (World, Answer) {
    var same := ToolRows(w, stay, request);
    if id :| id in same && w.rows[id].call == call then (w, Replayed(w.rows[id].content))
    else if |same| >= TOOL_LIMIT then (w, LimitReached)
    else if id :| id in CallRows(w, stay, call) then (w, Replayed(w.rows[id].content))
    else (Reserve(w, stay, request, call), Reserved(w.nextRow))
  }

  // The first transaction of a tool request.
  ghost function PostTool(w: World, who: Identity, request: nat, call: string, now: int): (World, Answer) {
    var (w1, denial) := Validate(w, who, now);
    if denial.Some? then (w1, Denied(denial.value)) else Admit(w1, who.stay, request, call)
  }

  function Execute(w: World, id: nat, result: string): World
    requires id in w.jobs
  {
    w.(jobs := w.jobs[id := w.jobs[id].(result := Some(result))],
       executed := w.executed + [(w.jobs[id].stay, w.jobs[id].call)])
  }

  function StoreResult(w: World, id: nat): World
    requires id in w.jobs && w.jobs[id].result.Some?
  {
    w.(jobs := w.jobs[id := w.jobs[id].(stored := true)],
       rows := if id in w.rows then w.rows[id := w.rows[id].(content := w.jobs[id].result.value)] else w.rows)
  }

  function CloseSession(w: World, who: Identity): World {
    if Known(w, who) then SetState(w, who.session, Closed) else w
  }

  function ExpireSessions(w: World, now: int): World {
    w.(sessions := map id | id in w.sessions ::
         if w.sessions[id].state == Active && w.sessions[id].expiresAt <= now then w.sessions[id].(state := Expired)
         else w.sessions[id])
  }

  function CreateSession(w: World, stay: nat, now: int): World {
    w.(sessions := w.sessions[w.nextSession := Session(stay, Active, now + TTL)], nextSession := w.nextSession + 1)
  }

  function ResetStay(w: World): World {
    w.(sessions := map id | id in w.sessions ::
         if w.sessions[id].stay == w.stay && w.sessions[id].state == Active then w.sessions[id].(state := WasReset)
         else w.sessions[id],
       rows := map id | id in w.rows && w.rows[id].stay != w.stay :: w.rows[id],
       stay := w.stay + 1)
  }

  // A message saved by the chat agent. It checked the stay earlier, in another transaction.
  function AgentSave(w: World, row: Row): World {
    if row.call != "" && CallRows(w, row.stay, row.call) != {} then w else Insert(w, row)
  }

  datatype Step =
    | LoadStay
    | Message(who: Identity, request: nat, role: Role, event: Option<string>, content: string, now: int)
    | ToolCall(who: Identity, request: nat, call: string, now: int)
    | RunTool(job: nat, result: string)
    | SaveResult(job: nat)
    | CloseIt(who: Identity)
    | Sweep(now: int)
    | Purge(session: nat)
    | Create(stay: nat, now: int)
    | Reset
    | AgentMessage(row: Row)

  predicate Enabled(w: World, s: Step) {
    match s
    case ToolCall(_, _, call, _) => call != ""
    case Message(_, _, role, _, _, _) => role != Tool
    case RunTool(job, _) => job in w.jobs && w.jobs[job].result.None?
    case SaveResult(job) => job in w.jobs && w.jobs[job].result.Some? && !w.jobs[job].stored
    case Purge(session) => session in w.sessions && w.sessions[session].state != Active
    case Create(stay, _) => stay in w.loaded
    case AgentMessage(row) => row.stay in w.loaded && row.event.None?
    case _ => true
  }

  ghost function Next(w: World, s: Step): World
    requires Enabled(w, s)
  {
    match s
    case LoadStay => w.(loaded := w.loaded + {w.stay})
    case Message(who, request, role, event, content, now) => PostMessage(w, who, request, role, event, content, now).0
    case ToolCall(who, request, call, now) => PostTool(w, who, request, call, now).0
    case RunTool(job, result) => Execute(w, job, result)
    case SaveResult(job) => StoreResult(w, job)
    case CloseIt(who) => CloseSession(w, who)
    case Sweep(now) => ExpireSessions(w, now)
    case Purge(session) => w.(sessions := w.sessions - {session})
    case Create(stay, now) => CreateSession(w, stay, now)
    case Reset => ResetStay(w)
    case AgentMessage(row) => AgentSave(w, row)
  }

  // ------------------------------------------------------------------
  // The invariant
  // ------------------------------------------------------------------

  function Reservations(w: World, stay: nat, request: nat): set<nat> {
    set id | id in w.jobs && w.jobs[id].stay == stay && w.jobs[id].request == request
  }

  // While a job's stay lasts, its reservation row is there and holds the stored result, if any.
  ghost predicate JobInv(w: World, id: nat)
    requires id in w.jobs
  {
    var job := w.jobs[id];
    && id < w.nextRow && job.stay <= w.stay && job.call != ""
    && (job.stored ==> job.result.Some?)
    && (job.stay == w.stay ==>
          && id in w.rows && w.rows[id].stay == job.stay && w.rows[id].request == job.request
          && w.rows[id].role == Tool && w.rows[id].call == job.call
          && (job.stored ==> w.rows[id].content == job.result.value))
  }

  ghost predicate JobsInv(w: World) {
    && (forall id :: id in w.jobs ==> JobInv(w, id))
    && (forall i, j :: i in w.jobs && j in w.jobs && (w.jobs[i].stay, w.jobs[i].call) == (w.jobs[j].stay, w.jobs[j].call) ==>
          i == j)
  }

  ghost predicate Ran(w: World, id: nat, what: (nat, string)) {
    id in w.jobs && w.jobs[id].result.Some? && (w.jobs[id].stay, w.jobs[id].call) == what
  }

  ghost predicate Justified(w: World, what: (nat, string)) {
    exists id :: Ran(w, id, what)
  }

  ghost predicate ExecutedInv(w: World) {
    && (forall k :: 0 <= k < |w.executed| ==> Justified(w, w.executed[k]))
    && (forall k, l :: 0 <= k < l < |w.executed| ==> w.executed[k] != w.executed[l])
    && (forall id :: id in w.jobs && w.jobs[id].result.Some? ==> (w.jobs[id].stay, w.jobs[id].call) in w.executed)
  }

  ghost predicate LimitInv(w: World) {
    forall stay, request :: |Reservations(w, stay, request)| <= TOOL_LIMIT
  }

  ghost predicate TablesInv(w: World) {
    && CallsUnique(w)
    && (forall id :: id in w.rows ==> id < w.nextRow)
    && (forall id :: id in w.sessions ==> id < w.nextSession)
    && (forall stay :: stay in w.loaded ==> stay <= w.stay)
  }

  ghost predicate Inv(w: World) {
    TablesInv(w) && JobsInv(w) && ExecutedInv(w) && LimitInv(w)
  }

  // Only the session table and the set of loaded stays differ, or unrelated rows are added.
  ghost predicate JobsUntouched(w: World, w': World) {
    && w'.stay == w.stay && w'.jobs == w.jobs && w'.executed == w.executed && w'.nextRow >= w.nextRow
    && (forall id :: id in w.rows ==> id in w'.rows && w'.rows[id] == w.rows[id])
  }

  lemma UntouchedKeepsJobs(w: World, w': World)
    requires JobsInv(w) && ExecutedInv(w) && LimitInv(w) && JobsUntouched(w, w')
    ensures JobsInv(w') && ExecutedInv(w') && LimitInv(w')
  {
    forall id | id in w'.jobs ensures JobInv(w', id) { assert JobInv(w, id); }
    forall k | 0 <= k < |w'.executed|
      ensures Justified(w', w'.executed[k])
    {
      assert Justified(w, w.executed[k]);
      var id :| Ran(w, id, w.executed[k]);
      assert Ran(w', id, w'.executed[k]);
    }
    forall stay: nat, request: nat
      ensures Reservations(w', stay, request) == Reservations(w, stay, request)
    {
    }
  }

  lemma ValidateFacts(w: World, who: Identity, now: int)
    ensures
      var (w', denial) := Validate(w, who, now);
      && JobsUntouched(w, w') && w'.rows == w.rows && w'.nextRow == w.nextRow && w'.loaded == w.loaded
      && w'.sessions.Keys == w.sessions.Keys && w'.nextSession == w.nextSession
      && (denial.None? ==> who.stay == w.stay && Known(w, who))
      && (forall id :: id in w.sessions && w.sessions[id].state != Active ==> w'.sessions[id] == w.sessions[id])
  {
  }

  lemma InsertKeepsInv(w: World, row: Row)
    requires Inv(w)
    requires row.call != "" ==> CallRows(w, row.stay, row.call) == {}
    ensures Inv(Insert(w, row))
  {
    var w' := Insert(w, row);
    UntouchedKeepsJobs(w, w');
    forall i | i in w.rows && row.call != "" && w.rows[i].stay == row.stay
      ensures w.rows[i].call != row.call
    {
      assert i !in CallRows(w, row.stay, row.call);
    }
  }

  lemma ReserveKeepsJobs(w: World, stay: nat, request: nat, call: string)
    requires TablesInv(w) && JobsInv(w) && stay == w.stay && call != "" && CallRows(w, stay, call) == {}
    ensures JobsInv(Reserve(w, stay, request, call))
  {
    var id, w' := w.nextRow, Reserve(w, stay, request, call);
    forall j | j in w'.jobs
      ensures JobInv(w', j)
      ensures j != id ==> (w.jobs[j].stay, w.jobs[j].call) != (stay, call)
    {
      if j != id {
        assert JobInv(w, j);
        assert j !in CallRows(w, stay, call);
      }
    }
  }

  lemma ReserveKeepsExecuted(w: World, stay: nat, request: nat, call: string)
    requires JobsInv(w) && ExecutedInv(w)
    ensures ExecutedInv(Reserve(w, stay, request, call))
  {
    var w' := Reserve(w, stay, request, call);
    forall k | 0 <= k < |w'.executed|
      ensures Justified(w', w'.executed[k])
    {
      assert Justified(w, w.executed[k]);
      var j :| Ran(w, j, w.executed[k]);
      assert JobInv(w, j);
      assert Ran(w', j, w.executed[k]);
    }
  }

  lemma ReserveAddsOne(w: World, stay: nat, request: nat, call: string, s: nat, r: nat)
    requires JobsInv(w)
    ensures Reservations(Reserve(w, stay, request, call), s, r) ==
              if s == stay && r == request then Reservations(w, s, r) + {w.nextRow} else Reservations(w, s, r)
  {
  }

  lemma ReserveKeepsLimit(w: World, stay: nat, request: nat, call: string)
    requires JobsInv(w) && LimitInv(w) && stay == w.stay
    requires |ToolRows(w, stay, request)| < TOOL_LIMIT
    ensures LimitInv(Reserve(w, stay, request, call))
  {
    ReservationsBelowRows(w, request);
    forall s: nat, r: nat
      ensures |Reservations(Reserve(w, stay, request, call), s, r)| <= TOOL_LIMIT
    {
      ReserveAddsOne(w, stay, request, call, s, r);
    }
  }

  lemma ReserveKeepsInv(w: World, stay: nat, request: nat, call: string)
    requires Inv(w) && stay == w.stay && call != ""
    requires CallRows(w, stay, call) == {} && |ToolRows(w, stay, request)| < TOOL_LIMIT
    ensures Inv(Reserve(w, stay, request, call))
  {
    InsertKeepsInv(w, Row(stay, request, Tool, call, None, IN_PROGRESS));
    ReserveKeepsJobs(w, stay, request, call);
    ReserveKeepsExecuted(w, stay, request, call);
    ReserveKeepsLimit(w, stay, request, call);
  }

  lemma ReservationsBelowRows(w: World, request: nat)
    requires JobsInv(w)
    ensures |Reservations(w, w.stay, request)| <= |ToolRows(w, w.stay, request)|
  {
    var jobs, rows := Reservations(w, w.stay, request), ToolRows(w, w.stay, request);
    forall id | id in jobs ensures id in rows { assert JobInv(w, id); }
    SubsetSize(jobs, rows);
  }

  lemma {:induction false} SubsetSize(a: set<nat>, b: set<nat>)
    requires a <= b
    ensures |a| <= |b|
  {
    if x :| x in a {
      SubsetSize(a - {x}, b - {x});
    }
  }

  lemma ValidateKeepsInv(w: World, who: Identity, now: int)
    requires Inv(w)
    ensures Inv(Validate(w, who, now).0)
  {
    ValidateFacts(w, who, now);
    UntouchedKeepsJobs(w, Validate(w, who, now).0);
  }

  lemma AdmitKeepsInv(w: World, request: nat, call: string)
    requires Inv(w) && call != ""
    ensures Inv(Admit(w, w.stay, request, call).0)
  {
    if CallRows(w, w.stay, call) == {} && |ToolRows(w, w.stay, request)| < TOOL_LIMIT {
      ReserveKeepsInv(w, w.stay, request, call);
    }
  }

  lemma ToolKeepsInv(w: World, who: Identity, request: nat, call: string, now: int)
    requires Inv(w) && call != ""
    ensures Inv(PostTool(w, who, request, call, now).0)
  {
    ValidateFacts(w, who, now);
    ValidateKeepsInv(w, who, now);
    AdmitKeepsInv(Validate(w, who, now).0, request, call);
  }

  lemma MessageKeepsInv(w: World, who: Identity, request: nat, role: Role, event: Option<string>, content: string, now: int)
    requires Inv(w)
    ensures Inv(PostMessage(w, who, request, role, event, content, now).0)
  {
    ValidateKeepsInv(w, who, now);
    InsertKeepsInv(Validate(w, who, now).0, Row(who.stay, request, role, "", event, content));
  }

  lemma ExecuteKeepsInv(w: World, id: nat, result: string)
    requires Inv(w) && id in w.jobs && w.jobs[id].result.None?
    ensures Inv(Execute(w, id, result))
  {
    var w' := Execute(w, id, result);
    ExecuteKeepsExecuted(w, id, result);
    forall j | j in w'.jobs ensures JobInv(w', j) { assert JobInv(w, j); }
    forall s: nat, r: nat ensures |Reservations(w', s, r)| <= TOOL_LIMIT {
      assert Reservations(w', s, r) == Reservations(w, s, r);
    }
  }

  lemma ExecuteKeepsExecuted(w: World, id: nat, result: string)
    requires JobsInv(w) && ExecutedInv(w) && id in w.jobs && w.jobs[id].result.None?
    ensures ExecutedInv(Execute(w, id, result))
  {
    var w' := Execute(w, id, result);
    forall k | 0 <= k < |w.executed|
      ensures w.executed[k] != (w.jobs[id].stay, w.jobs[id].call)
      ensures Justified(w', w.executed[k])
    {
      assert Justified(w, w.executed[k]);
      var j :| Ran(w, j, w.executed[k]);
      assert Ran(w', j, w.executed[k]);
    }
    assert Ran(w', id, w'.executed[|w.executed|]);
  }

  lemma StoreKeepsInv(w: World, id: nat)
    requires Inv(w) && id in w.jobs && w.jobs[id].result.Some?
    ensures Inv(StoreResult(w, id))
  {
    var w' := StoreResult(w, id);
    forall j | j in w'.jobs ensures JobInv(w', j) { assert JobInv(w, j); }
    forall k | 0 <= k < |w.executed|
      ensures Justified(w', w.executed[k])
    {
      assert Justified(w, w.executed[k]);
      var j :| Ran(w, j, w.executed[k]);
      assert Ran(w', j, w.executed[k]);
    }
    forall s: nat, r: nat ensures |Reservations(w', s, r)| <= TOOL_LIMIT {
      assert Reservations(w', s, r) == Reservations(w, s, r);
    }
  }

  lemma ResetKeepsInv(w: World)
    requires Inv(w)
    ensures Inv(ResetStay(w))
  {
    var w' := ResetStay(w);
    forall k | 0 <= k < |w'.executed|
      ensures Justified(w', w'.executed[k])
    {
      assert Justified(w, w.executed[k]);
      var id :| Ran(w, id, w.executed[k]);
      assert Ran(w', id, w'.executed[k]);
    }
    forall j | j in w'.jobs ensures JobInv(w', j) { assert JobInv(w, j); }
    forall s: nat, r: nat ensures |Reservations(w', s, r)| <= TOOL_LIMIT {
      assert Reservations(w', s, r) == Reservations(w, s, r);
    }
  }

  lemma NextKeepsInv(w: World, s: Step)
    requires Inv(w) && Enabled(w, s)
    ensures Inv(Next(w, s))
  {
    match s
    case Message(who, request, role, event, content, now) =>
      MessageKeepsInv(w, who, request, role, event, content, now);
    case ToolCall(who, request, call, now) => ToolKeepsInv(w, who, request, call, now);
    case RunTool(job, result) => ExecuteKeepsInv(w, job, result);
    case SaveResult(job) => StoreKeepsInv(w, job);
    case Reset => ResetKeepsInv(w);
    case AgentMessage(row) =>
      if row.call == "" || CallRows(w, row.stay, row.call) == {} { InsertKeepsInv(w, row); }
    case _ => SessionsKeepInv(w, s);
  }

  lemma SessionsKeepInv(w: World, s: Step)
    requires Inv(w) && Enabled(w, s) && (s.LoadStay? || s.CloseIt? || s.Sweep? || s.Purge? || s.Create?)
    ensures Inv(Next(w, s))
  {
    UntouchedKeepsJobs(w, Next(w, s));
  }

  predicate Gated(s: Step) {
    s.ToolCall? || s.Message?
  }

  // What a request that passes the gate, or not, does to the rest of the tables.
  lemma GateStep(w: World, s: Step)
    requires Enabled(w, s) && Gated(s)
    ensures
      var w' := Next(w, s);
      && w'.sessions == Validate(w, s.who, s.now).0.sessions && w'.nextSession == w.nextSession && w'.stay == w.stay
      && (forall id :: id in w.jobs && id != w.nextRow ==> id in w'.jobs && w'.jobs[id] == w.jobs[id])
  {
  }

  // ------------------------------------------------------------------
  // Every run
  // ------------------------------------------------------------------

  ghost predicate IsRun(ws: seq<World>, ss: seq<Step>) {
    && |ws| == |ss| + 1 && ws[0] == INITIAL
    && forall i :: 0 <= i < |ss| ==> Enabled(ws[i], ss[i]) && ws[i + 1] == Next(ws[i], ss[i])
  }

  lemma {:induction false} RunInv(ws: seq<World>, ss: seq<Step>, i: nat)
    requires IsRun(ws, ss) && i < |ws|
    ensures Inv(ws[i])
  {
    if i == 0 {
      forall s: nat, r: nat ensures Reservations(INITIAL, s, r) == {} {}
    } else {
      RunInv(ws, ss, i - 1);
      NextKeepsInv(ws[i - 1], ss[i - 1]);
    }
  }

  // Each (stay, call id) is executed at most once, and at most five calls are reserved per request.
  lemma ToolsRunAtMostOnce(ws: seq<World>, ss: seq<Step>, i: nat)
    requires IsRun(ws, ss) && i < |ws|
    ensures forall k, l :: 0 <= k < l < |ws[i].executed| ==> ws[i].executed[k] != ws[i].executed[l]
    ensures forall stay, request :: |Reservations(ws[i], stay, request)| <= 5
  {
    RunInv(ws, ss, i);
  }

  // A call has a result, to be stored, if and only if it was executed.
  lemma ResultsComeFromExecution(ws: seq<World>, ss: seq<Step>, i: nat, id: nat)
    requires IsRun(ws, ss) && i < |ws| && id in ws[i].jobs
    ensures ws[i].jobs[id].result.Some? <==> (ws[i].jobs[id].stay, ws[i].jobs[id].call) in ws[i].executed
    ensures ws[i].jobs[id].stored ==> ws[i].jobs[id].result.Some?
  {
    RunInv(ws, ss, i);
    var w := ws[i];
    assert JobInv(w, id);
    var what := (w.jobs[id].stay, w.jobs[id].call);
    if what in w.executed {
      var k :| 0 <= k < |w.executed| && w.executed[k] == what;
      assert Justified(w, w.executed[k]);
      var j :| Ran(w, j, w.executed[k]);
    }
  }

  lemma StoredStep(w: World, s: Step, id: nat)
    requires Inv(w) && Enabled(w, s) && id in w.jobs && w.jobs[id].stored
    ensures id in Next(w, s).jobs && Next(w, s).jobs[id] == w.jobs[id]
  {
    assert JobInv(w, id);
    if Gated(s) { GateStep(w, s); }
  }

  lemma {:induction false} StoredStays(ws: seq<World>, ss: seq<Step>, i: nat, j: nat, id: nat)
    requires IsRun(ws, ss) && i <= j < |ws|
    requires id in ws[i].jobs && ws[i].jobs[id].stored
    ensures id in ws[j].jobs && ws[j].jobs[id] == ws[i].jobs[id]
    decreases j
  {
    if i < j {
      StoredStays(ws, ss, i, j - 1, id);
      RunInv(ws, ss, j - 1);
      StoredStep(ws[j - 1], ss[j - 1], id);
    }
  }

  // A call whose result is stored is replayed to every admitted retry in the same request.
  lemma StoredIsReplayed(w: World, id: nat, who: Identity, now: int)
    requires Inv(w) && id in w.jobs && w.jobs[id].stored
    requires who.stay == w.jobs[id].stay && Validate(w, who, now).1.None?
    ensures w.jobs[id].result.Some?
    ensures
      var job := w.jobs[id];
      var (after, answer) := PostTool(w, who, job.request, job.call, now);
      answer == Replayed(job.result.value) && after.jobs == w.jobs && after.rows == w.rows
  {
    assert JobInv(w, id);
    ValidateFacts(w, who, now);
    var w1 := Validate(w, who, now).0;
    var job := w.jobs[id];
    assert id in ToolRows(w1, who.stay, job.request) && w1.rows[id].call == job.call;
    forall other | other in ToolRows(w1, who.stay, job.request) && w1.rows[other].call == job.call
      ensures other == id
    {
    }
  }

  // Once a result is stored, every admitted retry of that call in the same request gets exactly that result
  // and reserves nothing.
  lemma RetryGetsStoredResult(ws: seq<World>, ss: seq<Step>, i: nat, j: nat, id: nat, who: Identity, now: int)
    requires IsRun(ws, ss) && i <= j < |ws|
    requires id in ws[i].jobs && ws[i].jobs[id].stored
    requires who.stay == ws[i].jobs[id].stay && Validate(ws[j], who, now).1.None?
    ensures ws[i].jobs[id].result.Some?
    ensures
      var job := ws[i].jobs[id];
      var (after, answer) := PostTool(ws[j], who, job.request, job.call, now);
      answer == Replayed(job.result.value) && after.jobs == ws[j].jobs && after.rows == ws[j].rows
  {
    RunInv(ws, ss, j);
    StoredStays(ws, ss, i, j, id);
    StoredIsReplayed(ws[j], id, who, now);
  }

  // A tool request is reserved exactly when its identity is accepted, the stay has no such call yet and the request
  // has fewer than five; a replay repeats a stored row of that call; at the limit only calls of the same request are
  // replayed.
  lemma ToolAnswerIff(w: World, who: Identity, request: nat, call: string, now: int)
    requires call != ""
    ensures
      var (gated, denial) := Validate(w, who, now);
      var (after, answer) := PostTool(w, who, request, call, now);
      var known := set id | id in w.rows && w.rows[id].stay == who.stay && w.rows[id].call == call;
      var same := set id | id in w.rows && w.rows[id].stay == who.stay && w.rows[id].request == request && w.rows[id].role == Tool;
      && (answer.Denied? <==> denial.Some?)
      && (answer.Denied? ==> answer == Denied(denial.value))
      && (answer.Reserved? <==> denial.None? && known == {} && |same| < 5)
      && (answer.LimitReached? <==> denial.None? && known * same == {} && |same| >= 5)
      && (answer.Replayed? ==> exists id :: id in known && answer == Replayed(w.rows[id].content))
      && after.sessions == gated.sessions
      && (!answer.Reserved? ==> after.rows == w.rows && after.jobs == w.jobs)
      && (answer.Reserved? ==> Holds(w, after, answer.row, who.stay, request, call))
  {
    ValidateFacts(w, who, now);
    var w1 := Validate(w, who, now).0;
    var known := set id | id in w.rows && w.rows[id].stay == who.stay && w.rows[id].call == call;
    var same := set id | id in w.rows && w.rows[id].stay == who.stay && w.rows[id].request == request && w.rows[id].role == Tool;
    assert CallRows(w1, who.stay, call) == known && ToolRows(w1, who.stay, request) == same;
    assert forall id :: id in same && w.rows[id].call == call <==> id in known * same;
  }

  // The reservation: one new row that tells of a tool in progress, and one new job.
  ghost predicate Holds(w: World, after: World, id: nat, stay: nat, request: nat, call: string) {
    && id == w.nextRow && after.nextRow == id + 1
    && after.rows == w.rows[id := Row(stay, request, Tool, call, None, "tool_in_progress")]
    && after.jobs == w.jobs[id := Job(stay, request, call, None, false)]
  }

  // ------------------------------------------------------------------
  // Realtime events
  // ------------------------------------------------------------------

  ghost predicate EventsUnique(w: World) {
    && (forall id :: id in w.rows ==> id < w.nextRow)
    && (forall i, j :: i in w.rows && j in w.rows && i != j && w.rows[i].event.Some? ==>
          (w.rows[i].stay, w.rows[i].event) != (w.rows[j].stay, w.rows[j].event))
  }

  lemma InsertKeepsEvents(w: World, row: Row)
    requires EventsUnique(w) && !EventTaken(w, row.stay, row.event)
    ensures EventsUnique(Insert(w, row))
  {
  }

  lemma PostKeepsEvents(w: World, who: Identity, request: nat, role: Role, event: Option<string>, content: string, now: int)
    requires EventsUnique(w)
    ensures EventsUnique(PostMessage(w, who, request, role, event, content, now).0)
  {
    ValidateFacts(w, who, now);
    var w1 := Validate(w, who, now).0;
    if !EventTaken(w1, who.stay, event) {
      InsertKeepsEvents(w1, Row(who.stay, request, role, "", event, content));
    }
  }

  lemma ToolKeepsEvents(w: World, who: Identity, request: nat, call: string, now: int)
    requires EventsUnique(w)
    ensures EventsUnique(PostTool(w, who, request, call, now).0)
  {
    ValidateFacts(w, who, now);
    InsertKeepsEvents(Validate(w, who, now).0, Row(who.stay, request, Tool, call, None, IN_PROGRESS));
  }

  lemma EventsStep(w: World, s: Step)
    requires EventsUnique(w) && Enabled(w, s)
    ensures EventsUnique(Next(w, s))
  {
    match s
    case Message(who, request, role, event, content, now) => PostKeepsEvents(w, who, request, role, event, content, now);
    case ToolCall(who, request, call, now) => ToolKeepsEvents(w, who, request, call, now);
    case AgentMessage(row) => InsertKeepsEvents(w, row);
    case _ =>
  }

  // However often an event is posted, a stay stores it at most once; a refused copy is answered as a duplicate and
  // stores nothing.
  lemma {:induction false} EventsStoredOnce(ws: seq<World>, ss: seq<Step>, i: nat)
    requires IsRun(ws, ss) && i < |ws|
    ensures EventsUnique(ws[i])
  {
    if i > 0 {
      var k := i - 1;
      EventsStoredOnce(ws, ss, k);
      assert ws[k + 1] == Next(ws[k], ss[k]);
      EventsStep(ws[k], ss[k]);
    }
  }

  lemma MessageAnswerIff(w: World, who: Identity, request: nat, role: Role, event: Option<string>, content: string, now: int)
    requires forall id :: id in w.rows ==> id < w.nextRow
    ensures
      var (gated, denial) := Validate(w, who, now);
      var (after, answer) := PostMessage(w, who, request, role, event, content, now);
      var taken := event.Some? && exists id :: id in w.rows && w.rows[id].stay == who.stay && w.rows[id].event == event;
      && (answer.Inserted? <==> denial.None? && !taken)
      && (answer == Duplicate <==> denial.None? && taken)
      && (denial.Some? ==> answer == Denied(denial.value))
      && after.sessions == gated.sessions
      && (!answer.Inserted? ==> after.rows == w.rows)
      && (answer.Inserted? ==>
            answer.row !in w.rows && after.rows == w.rows[answer.row := Row(w.stay, request, role, "", event, content)])
  {
    ValidateFacts(w, who, now);
  }

  // ------------------------------------------------------------------
  // Stay isolation
  // ------------------------------------------------------------------

  // What the gate decides and leaves: an unknown identity changes nothing; a session of another stay or one whose time has
  // passed is retired; any other is accepted and given 900 seconds from now.
  ghost predicate Decides(w: World, who: Identity, now: int, sessions: map<nat, Session>, denial: Option<Denial>) {
    var known := who.session in w.sessions && w.sessions[who.session].stay == who.stay && w.sessions[who.session].state == Active;
    && (denial == Some(InvalidSession) <==> !known)
    && (denial == Some(StayExpired) <==> known && who.stay != w.stay)
    && (denial == Some(SessionExpired) <==> known && who.stay == w.stay && w.sessions[who.session].expiresAt <= now)
    && (denial == None <==> known && who.stay == w.stay && now < w.sessions[who.session].expiresAt)
    && (!known ==> sessions == w.sessions)
    && (known ==>
          var session := w.sessions[who.session];
          sessions == w.sessions[who.session :=
            if who.stay != w.stay then Session(who.stay, WasReset, session.expiresAt)
            else if session.expiresAt <= now then Session(who.stay, Expired, session.expiresAt)
            else Session(who.stay, Active, now + 900)])
  }

  lemma GateDecides(w: World, who: Identity, now: int)
    ensures Decides(w, who, now, Validate(w, who, now).0.sessions, Validate(w, who, now).1)
    ensures Validate(w, who, now).0 == w.(sessions := Validate(w, who, now).0.sessions)
  {
  }

  // A sweep retires exactly the sessions whose time has passed, and a new session is active for 900 seconds.
  lemma SweepExpiresIff(w: World, now: int, id: nat)
    requires id in w.sessions
    ensures
      var w' := Next(w, Sweep(now));
      && w' == w.(sessions := w'.sessions) && w'.sessions.Keys == w.sessions.Keys
      && w'.sessions[id].stay == w.sessions[id].stay && w'.sessions[id].expiresAt == w.sessions[id].expiresAt
      && (w'.sessions[id].state == Active <==> w.sessions[id].state == Active && now < w.sessions[id].expiresAt)
      && (w'.sessions[id].state != w.sessions[id].state ==> w'.sessions[id].state == Expired)
  {
  }

  lemma CreatedIsAccepted(w: World, stay: nat, now: int, at: int)
    requires TablesInv(w) && Enabled(w, Create(stay, now))
    ensures
      var w', who := Next(w, Create(stay, now)), Identity(w.nextSession, stay);
      && who.session !in w.sessions && w'.sessions.Keys == w.sessions.Keys + {who.session}
      && (Validate(w', who, at).1.None? <==> stay == w.stay && at < now + 900)
  {
  }

  // An identity is accepted exactly while it names an active, unexpired session of the current stay.
  lemma AcceptedIff(w: World, who: Identity, now: int)
    ensures Validate(w, who, now).1.None? <==>
              && who.session in w.sessions && w.sessions[who.session].stay == who.stay == w.stay
              && w.sessions[who.session].state == Active && now < w.sessions[who.session].expiresAt
  {
  }

  predicate Uses(s: Step, who: Identity) {
    (s.Message? || s.ToolCall?) && s.who == who
  }

  // The step gives the identity time until `granted + TTL`: it creates its session, or is accepted under it.
  predicate Grants(w: World, s: Step, who: Identity, granted: int) {
    || (s == Create(who.stay, granted) && w.nextSession == who.session)
    || (Uses(s, who) && s.now == granted && Validate(w, who, granted).1.None?)
  }

  // What the steps after it leave of that, as seen at time `now`.
  ghost predicate Lasting(w: World, who: Identity, end: int, now: int) {
    && who.session < w.nextSession
    && (w.stay == who.stay ==>
          if who.session in w.sessions
          then w.sessions[who.session].stay == who.stay && w.sessions[who.session].expiresAt == end
               && (w.sessions[who.session].state == Active || end <= now)
          else end <= now)
  }

  lemma GrantLasts(w: World, s: Step, who: Identity, granted: int, now: int)
    requires TablesInv(w) && Enabled(w, s) && Grants(w, s, who, granted)
    ensures Lasting(Next(w, s), who, granted + TTL, now)
  {
    if Uses(s, who) {
      ValidateFacts(w, who, s.now);
    }
  }

  lemma GateLasting(w: World, s: Step, who: Identity, end: int, now: int)
    requires Enabled(w, s) && Gated(s) && s.who != who && Lasting(w, who, end, now)
    ensures Lasting(Next(w, s), who, end, now)
  {
    GateStep(w, s);
  }

  lemma LastingStep(w: World, s: Step, who: Identity, end: int, now: int)
    requires TablesInv(w) && Enabled(w, s) && Lasting(w, who, end, now) && who.stay <= w.stay
    requires !Uses(s, who) && s != CloseIt(who) && (s.Sweep? ==> s.now <= now)
    ensures Lasting(Next(w, s), who, end, now) || Next(w, s).stay != who.stay
  {
    if Gated(s) { GateLasting(w, s, who, end, now); }
  }

  lemma {:induction false} LastsUntilUsed(ws: seq<World>, ss: seq<Step>, m: nat, j: nat, who: Identity, granted: int, now: int)
    requires IsRun(ws, ss) && m < j < |ws| && Grants(ws[m], ss[m], who, granted)
    requires forall n :: m < n < j ==> !Uses(ss[n], who) && ss[n] != CloseIt(who) && (ss[n].Sweep? ==> ss[n].now <= now)
    ensures Lasting(ws[j], who, granted + TTL, now) || who.stay < ws[j].stay
    decreases j
  {
    var k := j - 1;
    var w, s := ws[k], ss[k];
    assert Enabled(w, s) && ws[k + 1] == Next(w, s);
    RunInv(ws, ss, k);
    RunStayStep(ws, ss, k);
    if k == m {
      GrantLasts(w, s, who, granted, now);
    } else {
      LastsUntilUsed(ws, ss, m, k, who, granted, now);
      if Lasting(w, who, granted + TTL, now) {
        NotFromTheFuture(ws, ss, m, who, granted);
        StaysAdvance(ws, ss, m, k);
        LastingStep(w, s, who, granted + TTL, now);
      }
    }
  }

  // Sessions are never created for a stay that has not begun.
  lemma NotFromTheFuture(ws: seq<World>, ss: seq<Step>, m: nat, who: Identity, granted: int)
    requires IsRun(ws, ss) && m < |ss| && Grants(ws[m], ss[m], who, granted)
    ensures who.stay <= ws[m].stay
  {
    RunInv(ws, ss, m);
    assert Enabled(ws[m], ss[m]);
  }

  // In every run, an identity that was granted time, by its session's creation or by an accepted call, and has since
  // been neither used nor closed, is accepted if and only if its stay is still current and its time to live has not
  // passed, whatever else happened in between.
  lemma AcceptedExactlyUntil(ws: seq<World>, ss: seq<Step>, m: nat, j: nat, who: Identity, granted: int, now: int)
    requires IsRun(ws, ss) && m < j < |ws| && Grants(ws[m], ss[m], who, granted)
    requires forall n :: m < n < j ==> !Uses(ss[n], who) && ss[n] != CloseIt(who) && (ss[n].Sweep? ==> ss[n].now <= now)
    ensures Validate(ws[j], who, now).1.None? <==> ws[j].stay == who.stay && now < granted + TTL
  {
    LastsUntilUsed(ws, ss, m, j, who, granted, now);
    AcceptedIff(ws[j], who, now);
  }

  // And an accepted identity has always been granted time before.
  lemma {:induction false} AcceptedHasOrigin(ws: seq<World>, ss: seq<Step>, j: nat, who: Identity) returns (m: nat, granted: int)
    requires IsRun(ws, ss) && j < |ws| && Known(ws[j], who)
    ensures m < j && Grants(ws[m], ss[m], who, granted)
    decreases j
  {
    var k := j - 1;
    var w, s := ws[k], ss[k];
    assert Enabled(w, s) && ws[k + 1] == Next(w, s);
    if Known(w, who) {
      m, granted := AcceptedHasOrigin(ws, ss, k, who);
    } else {
      KnownIsCreated(w, s, who);
      m, granted := k, s.now;
    }
  }

  lemma KnownIsCreated(w: World, s: Step, who: Identity)
    requires Enabled(w, s) && !Known(w, who) && Known(Next(w, s), who)
    ensures s.Create? && s.stay == who.stay && w.nextSession == who.session
  {
    match s
    case ToolCall(other, _, _, t) => ValidateFacts(w, other, t);
    case Message(other, _, _, _, _, t) => ValidateFacts(w, other, t);
    case _ =>
  }

  // A realtime endpoint inserts only under the stay that is current in that transaction.
  lemma RealtimeInsertsUnderCurrentStay(w: World, s: Step, id: nat)
    requires Enabled(w, s) && (s.Message? || s.ToolCall?)
    requires id in Next(w, s).rows && id !in w.rows
    ensures Next(w, s).rows[id].stay == w.stay == s.who.stay
    ensures Known(w, s.who)
  {
  }

  lemma StayStep(w: World, s: Step)
    requires Enabled(w, s)
    ensures w.nextSession <= Next(w, s).nextSession
    ensures Next(w, s).stay == if s == Reset then w.stay + 1 else w.stay
  {
  }

  lemma RunStayStep(ws: seq<World>, ss: seq<Step>, k: nat)
    requires IsRun(ws, ss) && k < |ss|
    ensures ws[k].nextSession <= ws[k + 1].nextSession
    ensures ws[k + 1].stay == if ss[k] == Reset then ws[k].stay + 1 else ws[k].stay
  {
    var w, s := ws[k], ss[k];
    assert Enabled(w, s) && ws[k + 1] == Next(w, s);
    StayStep(w, s);
  }

  lemma {:induction false} StaysAdvance(ws: seq<World>, ss: seq<Step>, i: nat, j: nat)
    requires IsRun(ws, ss) && i <= j < |ws|
    ensures ws[i].stay <= ws[j].stay
    ensures ws[i].nextSession <= ws[j].nextSession
    decreases j
  {
    if i < j {
      var k := j - 1;
      StaysAdvance(ws, ss, i, k);
      RunStayStep(ws, ss, k);
      assert ws[j] == ws[k + 1];
    }
  }

  lemma InactiveStep(w: World, s: Step, id: nat)
    requires TablesInv(w) && Enabled(w, s)
    requires id < w.nextSession && (id in w.sessions ==> w.sessions[id].state != Active)
    ensures id in Next(w, s).sessions ==> Next(w, s).sessions[id].state != Active
  {
    match s
    case ToolCall(who, _, _, now) => ValidateFacts(w, who, now);
    case Message(who, _, _, _, _, now) => ValidateFacts(w, who, now);
    case _ =>
  }

  lemma RunInactiveStep(ws: seq<World>, ss: seq<Step>, k: nat, id: nat)
    requires IsRun(ws, ss) && k < |ss|
    requires id < ws[k].nextSession && (id in ws[k].sessions ==> ws[k].sessions[id].state != Active)
    ensures id in ws[k + 1].sessions ==> ws[k + 1].sessions[id].state != Active
  {
    var w, s := ws[k], ss[k];
    assert Enabled(w, s) && ws[k + 1] == Next(w, s);
    RunInv(ws, ss, k);
    InactiveStep(w, s, id);
  }

  // A session that is closed, reset, expired or purged never becomes active again.
  lemma {:induction false} InactiveForever(ws: seq<World>, ss: seq<Step>, i: nat, j: nat, id: nat)
    requires IsRun(ws, ss) && i <= j < |ws|
    requires id < ws[i].nextSession && (id in ws[i].sessions ==> ws[i].sessions[id].state != Active)
    ensures id in ws[j].sessions ==> ws[j].sessions[id].state != Active
    decreases j
  {
    if i < j {
      var k := j - 1;
      InactiveForever(ws, ss, i, k, id);
      StaysAdvance(ws, ss, i, k);
      RunInactiveStep(ws, ss, k, id);
      assert ws[j] == ws[k + 1];
    }
  }

  lemma UnknownStep(w: World, s: Step, who: Identity)
    requires TablesInv(w) && Enabled(w, s) && who.session < w.nextSession && !Known(w, who)
    ensures !Known(Next(w, s), who)
  {
    if Gated(s) { GateStep(w, s); }
  }

  lemma {:induction false} UnknownForever(ws: seq<World>, ss: seq<Step>, i: nat, j: nat, who: Identity)
    requires IsRun(ws, ss) && i <= j < |ws| && who.session < ws[i].nextSession && !Known(ws[i], who)
    ensures !Known(ws[j], who)
    decreases j
  {
    if i < j {
      var k := j - 1;
      UnknownForever(ws, ss, i, k, who);
      StaysAdvance(ws, ss, i, k);
      RunInv(ws, ss, k);
      var w, s := ws[k], ss[k];
      assert Enabled(w, s) && ws[k + 1] == Next(w, s);
      UnknownStep(w, s, who);
    }
  }

  // A denial is final: once a request naming an existing session was denied, for whatever reason, the same identity is
  // denied ever after.
  lemma DeniedForever(ws: seq<World>, ss: seq<Step>, i: nat, j: nat, who: Identity, later: int)
    requires IsRun(ws, ss) && i < j < |ws| && who.session < ws[i].nextSession
    requires (ss[i].Message? || ss[i].ToolCall?) && ss[i].who == who && Validate(ws[i], who, ss[i].now).1.Some?
    ensures Validate(ws[j], who, later).1.Some?
  {
    var w, s := ws[i], ss[i];
    assert Enabled(w, s) && ws[i + 1] == Next(w, s) == Validate(w, who, s.now).0;
    UnknownForever(ws, ss, i + 1, j, who);
  }

  // After a reset no identity with a stay that was current before it is accepted, whatever session it names
  // and whenever that session was created.
  lemma NothingBeforeAResetIsAccepted(ws: seq<World>, ss: seq<Step>, i: nat, k: nat, j: nat, who: Identity, now: int)
    requires IsRun(ws, ss) && i <= k < j < |ws| && ss[k] == Reset
    requires who.stay == ws[i].stay
    ensures Validate(ws[j], who, now).1.Some?
  {
    StaysAdvance(ws, ss, i, k);
    RunStayStep(ws, ss, k);
    StaysAdvance(ws, ss, k + 1, j);
    ValidateFacts(ws[j], who, now);
  }

  // ------------------------------------------------------------------
  // The views
  // ------------------------------------------------------------------

  ghost predicate Sound(w: World) {
    Inv(w) && EventsUnique(w)
  }

  lemma StepKeepsSound(w: World, s: Step)
    requires Sound(w) && Enabled(w, s)
    ensures Sound(Next(w, s))
  {
    NextKeepsInv(w, s);
    EventsStep(w, s);
  }

  // Storing a result decides every later answer about that call.
  lemma StoringAnswersRetries(w: World, id: nat, who: Identity, now: int)
    requires Inv(w) && id in w.jobs && w.jobs[id].result.Some? && who.stay == w.jobs[id].stay
    requires Validate(StoreResult(w, id), who, now).1.None?
    ensures PostTool(StoreResult(w, id), who, w.jobs[id].request, w.jobs[id].call, now).1 == Replayed(w.jobs[id].result.value)
  {
    StoreKeepsInv(w, id);
    StoredIsReplayed(StoreResult(w, id), id, who, now);
  }

  class Kiosk {
    var stay: nat
    var sessions: map<nat, Session>
    var nextSession: nat
    var rows: map<nat, Row>
    var nextRow: nat
    ghost var loaded: set<nat>
    ghost var jobs: map<nat, Job>
    ghost var executed: seq<(nat, string)>

    ghost function Contents(): World
      reads this
    {
      World(stay, loaded, sessions, nextSession, rows, nextRow, jobs, executed)
    }

    ghost predicate Valid()
      reads this
    {
      Sound(Contents())
    }

    constructor ()
      ensures Valid() && Contents() == INITIAL
    {
      stay, sessions, nextSession, rows, nextRow := 0, map[], 0, map[], 0;
      loaded, jobs, executed := {}, map[], [];
      new;
      assert IsRun([INITIAL], []);
      RunInv([INITIAL], [], 0);
    }

    method ValidatedRealtimeSession(who: Identity, now: int) returns (error: Option<Denial>)
      modifies this`sessions
      ensures (Contents(), error) == Validate(old(Contents()), who, now)
      ensures Decides(old(Contents()), who, now, sessions, error)
    {
      GateDecides(Contents(), who, now);
      if who.session !in sessions { return Some(InvalidSession); }
      var session := sessions[who.session];
      if session.stay != who.stay || session.state != Active { return Some(InvalidSession); }
      if stay != who.stay {
        sessions := sessions[who.session := session.(state := WasReset)];
        return Some(StayExpired);
      }
      if session.expiresAt <= now {
        sessions := sessions[who.session := session.(state := Expired)];
        return Some(SessionExpired);
      }
      sessions := sessions[who.session := session.(expiresAt := now + TTL)];
      error := None;
    }

    method InsertMessage(owner: nat, request: nat, role: Role, event: Option<string>, content: string) returns (answer: Answer)
      modifies this`rows, this`nextRow
      ensures
        var w := old(Contents());
        (Contents(), answer) == if EventTaken(w, owner, event) then (w, Duplicate)
                                else (Insert(w, Row(owner, request, role, "", event, content)), Inserted(w.nextRow))
    {
      if event.Some? && exists id :: id in rows && rows[id].stay == owner && rows[id].event == event {
        return Duplicate;
      }
      rows := rows[nextRow := Row(owner, request, role, "", event, content)];
      answer := Inserted(nextRow);
      nextRow := nextRow + 1;
    }

    method PostRealtimeMessage(who: Identity, request: nat, role: Role, event: Option<string>, content: string, now: int)
      returns (answer: Answer)
      requires Valid() && role != Tool
      modifies this
      ensures Valid() && (Contents(), answer) == PostMessage(old(Contents()), who, request, role, event, content, now)
    {
      StepKeepsSound(Contents(), Message(who, request, role, event, content, now));
      var error := ValidatedRealtimeSession(who, now);
      if error.Some? { return Denied(error.value); }
      answer := InsertMessage(who.stay, request, role, event, content);
    }

    method ReserveToolCall(owner: nat, request: nat, call: string) returns (answer: Answer)
      requires CallsUnique(Contents()) && call != ""
      modifies this
      ensures (Contents(), answer) == Admit(old(Contents()), owner, request, call)
    {
      ghost var w := Contents();
      var existing := set id | id in rows && rows[id].stay == owner && rows[id].request == request && rows[id].role == Tool;
      assert existing == ToolRows(w, owner, request);
      var duplicate := set id | id in existing && rows[id].call == call;
      if duplicate != {} {
        var id :| id in duplicate;
        return Replayed(rows[id].content);
      }
      forall id | id in existing ensures rows[id].call != call { assert id !in duplicate; }
      if |existing| >= TOOL_LIMIT { return LimitReached; }
      var clash := set id | id in rows && rows[id].stay == owner && rows[id].call == call;
      assert clash == CallRows(w, owner, call);
      if clash != {} {
        var id :| id in clash;
        return Replayed(rows[id].content);
      }
      answer := Reserved(nextRow);
      InsertReservation(owner, request, call);
    }

    method InsertReservation(owner: nat, request: nat, call: string)
      modifies this`rows, this`jobs, this`nextRow
      ensures Contents() == Reserve(old(Contents()), owner, request, call)
    {
      rows := rows[nextRow := Row(owner, request, Tool, call, None, IN_PROGRESS)];
      jobs := jobs[nextRow := Job(owner, request, call, None, false)];
      nextRow := nextRow + 1;
    }

    // The reserving transaction of the tool view.
    method PostRealtimeTool(who: Identity, request: nat, call: string, now: int) returns (answer: Answer)
      requires Valid() && call != ""
      modifies this
      ensures Valid() && (Contents(), answer) == PostTool(old(Contents()), who, request, call, now)
    {
      StepKeepsSound(Contents(), ToolCall(who, request, call, now));
      ValidateFacts(Contents(), who, now);
      var error := ValidatedRealtimeSession(who, now);
      if error.Some? { return Denied(error.value); }
      answer := ReserveToolCall(who.stay, request, call);
    }

    // The storing transaction: from now on every admitted retry of the call is answered with this result. It changes
    // no row when the reservation was deleted meanwhile.
    method StoreToolResult(reservation: nat, result: string)
      requires Valid() && reservation in jobs && jobs[reservation].result == Some(result) && !jobs[reservation].stored
      modifies this`rows, this`jobs
      ensures Valid() && Contents() == StoreResult(old(Contents()), reservation)
      ensures rows == if reservation in old(rows) then old(rows)[reservation := old(rows)[reservation].(content := result)]
                      else old(rows)
      ensures
        var job := old(jobs)[reservation];
        forall who: Identity, now: int :: who.stay == job.stay && Validate(Contents(), who, now).1.None? ==>
          PostTool(Contents(), who, job.request, job.call, now).1 == Replayed(result)
    {
      ghost var w := Contents();
      StepKeepsSound(w, SaveResult(reservation));
      forall who: Identity, now: int |
          who.stay == w.jobs[reservation].stay && Validate(StoreResult(w, reservation), who, now).1.None?
        ensures PostTool(StoreResult(w, reservation), who, w.jobs[reservation].request, w.jobs[reservation].call, now).1 ==
                Replayed(result)
      {
        StoringAnswersRetries(w, reservation, who, now);
      }
      if reservation in rows {
        rows := rows[reservation := rows[reservation].(content := result)];
      }
      jobs := jobs[reservation := jobs[reservation].(stored := true)];
    }

    // Afterwards the identity is refused at any time; every other identity is treated as before.
    method CloseRealtimeSession(who: Identity)
      requires Valid()
      modifies this`sessions
      ensures Valid() && Contents() == CloseSession(old(Contents()), who)
      ensures forall now: int :: Validate(Contents(), who, now).1.Some?
      ensures sessions.Keys == old(sessions).Keys
      ensures forall id :: id in sessions ==>
                sessions[id] == if id == who.session && old(sessions)[id].stay == who.stay && old(sessions)[id].state == Active
                                then old(sessions)[id].(state := Closed) else old(sessions)[id]
      ensures forall other: Identity, now: int :: other != who ==>
                Validate(Contents(), other, now).1 == Validate(old(Contents()), other, now).1
    {
      StepKeepsSound(Contents(), CloseIt(who));
      if who.session in sessions && sessions[who.session].stay == who.stay && sessions[who.session].state == Active {
        sessions := sessions[who.session := sessions[who.session].(state := Closed)];
      }
    }

    // Afterwards no identity of this or an earlier stay is accepted, the stay has no messages, and no other stay's
    // messages are touched.
    method ResetKiosk()
      requires Valid()
      modifies this`stay, this`sessions, this`rows
      ensures Valid() && Contents() == ResetStay(old(Contents()))
      ensures forall who: Identity, now: int :: who.stay <= old(stay) ==> Validate(Contents(), who, now).1.Some?
      ensures forall id :: id in old(rows) ==>
                if old(rows)[id].stay == old(stay) then id !in rows else id in rows && rows[id] == old(rows)[id]
      ensures forall id :: id in rows ==> rows[id].stay != old(stay) && id in old(rows)
      ensures stay == old(stay) + 1 && sessions.Keys == old(sessions).Keys
      ensures forall id :: id in sessions ==>
                sessions[id] == if old(sessions)[id].stay == old(stay) && old(sessions)[id].state == Active
                                then old(sessions)[id].(state := WasReset) else old(sessions)[id]
    {
      StepKeepsSound(Contents(), Reset);
      NewStay();
    }

    // The statements of the view, from any state.
    method NewStay()
      modifies this`stay, this`sessions, this`rows
      ensures Contents() == ResetStay(old(Contents()))
    {
      var oldStay := stay;
      sessions := map id | id in sessions ::
        if sessions[id].stay == oldStay && sessions[id].state == Active then sessions[id].(state := WasReset) else sessions[id];
      rows := map id | id in rows && rows[id].stay != oldStay :: rows[id];
      stay := stay + 1;
    }
  }
}
