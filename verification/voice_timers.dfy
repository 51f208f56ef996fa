/**
 The voice controller: session generations, named timers over the browser's own, and a bounded
 diagnostics log. A timer belongs to a session; ending the session, cancelling the name or
 scheduling it again must keep the old callback from ever running.
 */
module VoiceTimers {
  // A timer the browser holds, with what its callback captured.
  datatype Timer = Timer(name: string, generation: nat)

  datatype Page = Page(
    generation: nat,
    timers: map<string, nat>,        // the controller's timers by name
    pending: map<nat, Timer>,        // the browser's timers by identity
    next: nat,                       // next identity the browser hands out
    ran: seq<nat>)                   // bookkeeping: every callback run

  const INITIAL := Page(0, map[], map[], 1, [])

  datatype Step =
    | Schedule(name: string, generation: nat)
    | Cancel(name: string)
    | BeginSession
    | InvalidateSession
    | Fire(id: nat)                  // the browser reaches a timer's time

  function Cancelled(p: Page, name: string): Page {
    p.(pending := if name in p.timers then p.pending - {p.timers[name]} else p.pending, timers := p.timers - {name})
  }

  function Scheduled(p: Page, name: string, generation: nat): Page {
    var q := Cancelled(p, name);
    q.(pending := q.pending[q.next := Timer(name, generation)], timers := q.timers[name := q.next], next := q.next + 1)
  }

  function Renewed(p: Page): Page {
    p.(generation := p.generation + 1, pending := p.pending - p.timers.Values, timers := map[])
  }

  function Fired(p: Page, id: nat): Page
    requires id in p.pending
  {
    var timer := p.pending[id];
    p.(pending := p.pending - {id}, timers := p.timers - {timer.name},
       ran := if timer.generation == p.generation then p.ran + [id] else p.ran)
  }

  predicate Enabled(p: Page, s: Step) {
    s.Fire? ==> s.id in p.pending
  }

  function Next(p: Page, s: Step): Page
    requires Enabled(p, s)
  {
    match s
    case Schedule(name, generation) => Scheduled(p, name, generation)
    case Cancel(name) => Cancelled(p, name)
    case BeginSession => Renewed(p)
    case InvalidateSession => Renewed(p)
    case Fire(id) => Fired(p, id)
  }

  // ------------------------------------------------------------------
  // The invariant: the controller knows every timer the browser holds
  // ------------------------------------------------------------------

  ghost predicate Known(p: Page) {
    && (forall name :: name in p.timers ==> p.timers[name] in p.pending && p.pending[p.timers[name]].name == name)
    && (forall id :: id in p.pending ==> p.pending[id].name in p.timers && p.timers[p.pending[id].name] == id)
  }

  ghost predicate Inv(p: Page) {
    && Known(p)
    && (forall id :: id in p.pending ==> id < p.next && id !in p.ran)
    && (forall id :: id in p.ran ==> id < p.next)
    && (forall i, j :: 0 <= i < j < |p.ran| ==> p.ran[i] != p.ran[j])
  }

  lemma NextKeepsInv(p: Page, s: Step)
    requires Inv(p) && Enabled(p, s)
    ensures Inv(Next(p, s)) && p.next <= Next(p, s).next
  {
  }

  // A timer that is no longer pending stays so and its callback does not run any more.
  ghost predicate Gone(p: Page, id: nat) {
    id < p.next && id !in p.pending
  }

  lemma GoneStaysGone(p: Page, s: Step, id: nat)
    requires Inv(p) && Enabled(p, s) && Gone(p, id)
    ensures Gone(Next(p, s), id) && (id in Next(p, s).ran ==> id in p.ran)
  {
  }

  // ------------------------------------------------------------------
  // Every run
  // ------------------------------------------------------------------

  ghost predicate IsRun(ps: seq<Page>, ss: seq<Step>) {
    && |ps| == |ss| + 1 && ps[0] == INITIAL
    && forall i :: 0 <= i < |ss| ==> Enabled(ps[i], ss[i]) && ps[i + 1] == Next(ps[i], ss[i])
  }

  lemma {:induction false} RunInv(ps: seq<Page>, ss: seq<Step>, i: nat)
    requires IsRun(ps, ss) && i < |ps|
    ensures Inv(ps[i])
  {
    if i > 0 {
      RunInv(ps, ss, i - 1);
      NextKeepsInv(ps[i - 1], ss[i - 1]);
    }
  }

  lemma {:induction false} GoneForever(ps: seq<Page>, ss: seq<Step>, i: nat, j: nat, id: nat)
    requires IsRun(ps, ss) && i <= j < |ps| && Gone(ps[i], id)
    ensures Gone(ps[j], id) && (id in ps[j].ran ==> id in ps[i].ran)
    decreases j
  {
    if i < j {
      var k := j - 1;
      GoneForever(ps, ss, i, k, id);
      RunInv(ps, ss, k);
      assert ps[k + 1] == Next(ps[k], ss[k]);
      GoneStaysGone(ps[k], ss[k], id);
    }
  }

  // No callback runs twice, and no name has two pending timers.
  lemma CallbacksRunOnce(ps: seq<Page>, ss: seq<Step>, i: nat)
    requires IsRun(ps, ss) && i < |ps|
    ensures forall a, b :: 0 <= a < b < |ps[i].ran| ==> ps[i].ran[a] != ps[i].ran[b]
    ensures forall a, b :: a in ps[i].pending && b in ps[i].pending && ps[i].pending[a].name == ps[i].pending[b].name ==> a == b
  {
    RunInv(ps, ss, i);
  }

  // Once a session has begun or ended, no callback scheduled before it runs any more.
  lemma SessionEndsItsTimers(ps: seq<Page>, ss: seq<Step>, k: nat, j: nat, id: nat)
    requires IsRun(ps, ss) && k < j < |ps| && (ss[k].BeginSession? || ss[k].InvalidateSession?)
    requires id < ps[k].next
    ensures id !in ps[j].pending
    ensures id in ps[j].ran ==> id in ps[k].ran
  {
    RunInv(ps, ss, k);
    NextKeepsInv(ps[k], ss[k]);
    assert ps[k + 1] == Renewed(ps[k]);
    GoneForever(ps, ss, k + 1, j, id);
  }

  // Cancelling a name, or scheduling it again, takes the callback that waited under it away for good.
  lemma ReplacedNeverRuns(ps: seq<Page>, ss: seq<Step>, k: nat, j: nat, id: nat)
    requires IsRun(ps, ss) && k < j < |ps| && id in ps[k].pending
    requires match ss[k]
             case Schedule(name, _) => name == ps[k].pending[id].name
             case Cancel(name) => name == ps[k].pending[id].name
             case _ => false
    ensures id !in ps[j].pending && id !in ps[j].ran
  {
    RunInv(ps, ss, k);
    assert ps[k].timers[ps[k].pending[id].name] == id;
    assert ps[k + 1] == Next(ps[k], ss[k]) && ps[k + 1].ran == ps[k].ran;
    GoneForever(ps, ss, k + 1, j, id);
  }

  // A timer left alone is still there, with the session it was scheduled for, and its callback runs when its time
  // comes if and only if that session is still the current one.
  lemma {:induction false} LeftAloneRunsIff(ps: seq<Page>, ss: seq<Step>, i: nat, j: nat, id: nat)
    requires IsRun(ps, ss) && i <= j < |ss| && id in ps[i].pending && ss[j] == Fire(id)
    requires forall k :: i <= k < j ==> LeavesAlone(ss[k], id, ps[i].pending[id].name)
    ensures id in ps[j].pending && ps[j].pending[id] == ps[i].pending[id]
    ensures id in ps[j + 1].ran <==> ps[i].pending[id].generation == ps[j].generation
  {
    StillPending(ps, ss, i, j, id);
    RunInv(ps, ss, j);
    assert ps[j + 1] == Fired(ps[j], id);
  }

  // From scheduling to running: a callback that is scheduled and left alone runs when its time comes if and only if the
  // session it was scheduled for is the current one then.
  lemma ScheduledRunsIff(ps: seq<Page>, ss: seq<Step>, i: nat, j: nat, name: string, generation: nat)
    requires IsRun(ps, ss) && i < j < |ss| && ss[i] == Schedule(name, generation) && ss[j] == Fire(ps[i].next)
    requires forall k :: i < k < j ==> LeavesAlone(ss[k], ps[i].next, name)
    ensures ps[i].next in ps[j].pending && ps[j].pending[ps[i].next] == Timer(name, generation)
    ensures ps[i].next in ps[j + 1].ran <==> generation == ps[j].generation
  {
    RunInv(ps, ss, i);
    assert ps[i + 1] == Scheduled(ps[i], name, generation);
    LeftAloneRunsIff(ps, ss, i + 1, j, ps[i].next);
  }

  ghost predicate LeavesAlone(s: Step, id: nat, name: string) {
    match s
    case Schedule(other, _) => other != name
    case Cancel(other) => other != name
    case Fire(other) => other != id
    case BeginSession => false
    case InvalidateSession => false
  }

  lemma {:induction false} StillPending(ps: seq<Page>, ss: seq<Step>, i: nat, j: nat, id: nat)
    requires IsRun(ps, ss) && i <= j < |ps| && id in ps[i].pending
    requires forall k :: i <= k < j ==> LeavesAlone(ss[k], id, ps[i].pending[id].name)
    ensures id in ps[j].pending && ps[j].pending[id] == ps[i].pending[id]
    decreases j
  {
    if i < j {
      var k := j - 1;
      StillPending(ps, ss, i, k, id);
      RunInv(ps, ss, k);
      assert LeavesAlone(ss[k], id, ps[i].pending[id].name) && ps[k + 1] == Next(ps[k], ss[k]);
    }
  }

  // ------------------------------------------------------------------
  // The diagnostics log
  // ------------------------------------------------------------------

  const LOG_LIMIT := 80

  function Logged<T>(log: seq<T>, entry: T): seq<T> {
    var longer := log + [entry];
    if |longer| > LOG_LIMIT then longer[1..] else longer
  }

  function LogOf<T>(entries: seq<T>): seq<T> {
    if entries == [] then [] else Logged(LogOf(entries[..|entries| - 1]), entries[|entries| - 1])
  }

  function LastEighty<T>(entries: seq<T>): seq<T> {
    if |entries| <= 80 then entries else entries[|entries| - 80..]
  }

  lemma LoggedKeepsLastEighty<T>(entries: seq<T>, entry: T)
    ensures Logged(LastEighty(entries), entry) == LastEighty(entries + [entry])
  {
  }

  // The log holds exactly the last eighty transitions, in order.
  lemma {:induction false} LogIsLastEighty<T>(entries: seq<T>)
    ensures LogOf(entries) == LastEighty(entries)
  {
    if entries != [] {
      LogIsLastEighty(entries[..|entries| - 1]);
      assert entries == entries[..|entries| - 1] + [entries[|entries| - 1]];
    }
  }

  // ------------------------------------------------------------------
  // The controller as code
  // ------------------------------------------------------------------

  datatype Phase = Idle | Connecting | Listening | Processing | Speaking | Recovering | Stopped

  datatype Entry = Entry(generation: nat, previous: Phase, phase: Phase)

  class Browser {
    var pending: map<nat, Timer>
    var next: nat

    constructor ()
      ensures pending == map[] && next == 1
    {
      pending, next := map[], 1;
    }

    method SetTimeout(timer: Timer) returns (id: nat)
      modifies this
      ensures id == old(next) && next == old(next) + 1 && pending == old(pending)[id := timer]
    {
      id := next;
      pending := pending[id := timer];
      next := next + 1;
    }

    method ClearTimeout(id: nat)
      modifies this
      ensures pending == old(pending) - {id} && next == old(next)
    {
      pending := pending - {id};
    }
  }

  class VoiceController {
    const browser: Browser
    var generation: nat
    var phase: Phase
    var timers: map<string, nat>
    var diagnostics: seq<Entry>
    ghost var ran: seq<nat>
    ghost var history: seq<Entry>       // every transition so far

    ghost function State(): Page
      reads this, browser
    {
      Page(generation, timers, browser.pending, browser.next, ran)
    }

    // The controller knows every timer the browser holds, and the log is what it should be.
    ghost predicate Valid()
      reads this, browser
    {
      Inv(State()) && diagnostics == LastEighty(history)
    }

    constructor (browser: Browser)
      requires browser.pending == map[] && browser.next == 1
      ensures Valid() && this.browser == browser && State() == INITIAL && history == []
    {
      this.browser := browser;
      generation, phase, timers, diagnostics, ran, history := 0, Idle, map[], [], [], [];
    }

    // Whatever was logged before, the log holds the last eighty transitions, this one at its end.
    method Transition(to: Phase)
      requires diagnostics == LastEighty(history)
      modifies this`phase, this`diagnostics, this`history
      ensures phase == to && history == old(history) + [Entry(generation, old(phase), to)]
      ensures diagnostics == LastEighty(history) && |diagnostics| <= 80
    {
      var previous := phase;
      phase := to;
      LoggedKeepsLastEighty(history, Entry(generation, previous, to));
      history := history + [Entry(generation, previous, to)];
      diagnostics := diagnostics + [Entry(generation, previous, to)];
      if |diagnostics| > LOG_LIMIT {
        diagnostics := diagnostics[1..];
      }
    }

    method CancelTimer(name: string)
      modifies this`timers, browser
      ensures State() == Cancelled(old(State()), name)
      ensures timers == old(timers) - {name} && browser.next == old(browser.next)
      ensures browser.pending == old(browser.pending) - if name in old(timers) then {old(timers)[name]} else {}
    {
      if name in timers {
        browser.ClearTimeout(timers[name]);
      }
      timers := timers - {name};
    }

    method ScheduleTimer(name: string, session: nat)
      requires Valid()
      modifies this`timers, browser
      ensures Valid() && State() == Scheduled(old(State()), name, session)
      ensures timers == old(timers)[name := old(browser.next)] && browser.next == old(browser.next) + 1
      ensures browser.pending ==
                (old(browser.pending) - if name in old(timers) then {old(timers)[name]} else {})
                  [old(browser.next) := Timer(name, session)]
    {
      NextKeepsInv(State(), Schedule(name, session));
      CancelTimer(name);
      var timer := browser.SetTimeout(Timer(name, session));
      timers := timers[name := timer];
    }

    method CancelAllTimers()
      modifies this`timers, browser
      ensures timers == map[] && browser.next == old(browser.next)
      ensures browser.pending == old(browser.pending) - old(timers).Values
    {
      var rest := timers.Keys;
      ghost var cleared: set<nat> := {};
      while rest != {}
        invariant rest <= timers.Keys && timers == old(timers) && browser.next == old(browser.next)
        invariant cleared == set name | name in timers && name !in rest :: timers[name]
        invariant browser.pending == old(browser.pending) - cleared
        decreases |rest|
      {
        HasName(rest);
        var name :| name in rest;
        browser.ClearTimeout(timers[name]);
        cleared := cleared + {timers[name]};
        rest := rest - {name};
      }
      assert cleared == timers.Values;
      timers := map[];
    }

    // Afterwards the browser holds no timer of the controller's at all.
    method BeginSession() returns (session: nat)
      requires Valid()
      modifies this, browser
      ensures Valid() && State() == Renewed(old(State())) && session == generation
      ensures browser.pending == map[]
      ensures generation == old(generation) + 1 && timers == map[] && ran == old(ran)
      ensures phase == Connecting && history == old(history) + [Entry(generation, old(phase), Connecting)]
    {
      NextKeepsInv(State(), Step.BeginSession);
      generation := generation + 1;
      CancelAllTimers();
      Transition(Connecting);
      session := generation;
    }

    method InvalidateSession() returns (session: nat)
      requires Valid()
      modifies this, browser
      ensures Valid() && State() == Renewed(old(State())) && session == generation
      ensures browser.pending == map[]
      ensures generation == old(generation) + 1 && timers == map[] && ran == old(ran)
      ensures phase == Stopped && history == old(history) + [Entry(generation, old(phase), Stopped)]
    {
      NextKeepsInv(State(), Step.InvalidateSession);
      generation := generation + 1;
      CancelAllTimers();
      Transition(Stopped);
      session := generation;
    }

    // The browser runs a timer: it forgets the timer, and the callback checks its session.
    method FireTimer(id: nat) returns (runs: bool)
      requires Valid() && id in browser.pending
      modifies this`timers, this`ran, browser
      ensures Valid() && State() == Fired(old(State()), id)
      ensures runs <==> old(browser.pending)[id].generation == generation
      ensures ran == (if runs then old(ran) + [id] else old(ran)) && browser.pending == old(browser.pending) - {id}
      ensures timers == old(timers) - {old(browser.pending)[id].name}
    {
      NextKeepsInv(State(), Fire(id));
      var timer := browser.pending[id];
      browser.ClearTimeout(id);
      timers := timers - {timer.name};
      runs := timer.generation == generation;
      if runs {
        ran := ran + [id];
      }
    }
  }

  lemma HasName(names: set<string>)
    ensures names == {} || exists name :: name in names
  {
  }
}
