/**
 The controller's timers: a 32-bit millisecond clock that wraps, retry deadlines compared by their
 signed difference, and the Wi-Fi reconnection with its growing wait. The same transitions are
 given once over true time and once over clock words, and shown to agree.
 */
module WrapTimers {
  const WORD := 0x1_0000_0000
  const HALF := 0x8000_0000

  type Word = x: int | 0 <= x < 0x1_0000_0000

  // What millis() shows at a true time.
  function Millis(time: nat): Word {
    time % WORD
  }

  function Minus(a: Word, b: Word): Word {
    (a - b) % WORD
  }

  function Plus(a: Word, b: nat): Word {
    (a + b) % WORD
  }

  // static_cast<int32_t>(now - deadline) >= 0
  predicate Due(now: Word, deadline: Word) {
    Minus(now, deadline) < HALF
  }

  // The comparison is the true one within 2^31 ms; beyond that it alternates with every 2^31 ms.
  lemma DueIff(now: nat, deadline: nat)
    ensures deadline <= now ==> (Due(Millis(now), Millis(deadline)) <==> (now - deadline) / 0x8000_0000 % 2 == 0)
    ensures -0x8000_0000 <= now - deadline < 0x8000_0000 ==> (Due(Millis(now), Millis(deadline)) <==> deadline <= now)
  {
    assert Minus(Millis(now), Millis(deadline)) == (now - deadline) % WORD;
    if deadline <= now {
      var late := now - deadline;
      assert late % WORD == late - late / WORD * WORD;
      assert late / HALF / 2 == late / WORD;
    }
  }

  lemma DueWithin(now: nat, deadline: nat)
    requires -HALF <= now - deadline < HALF
    ensures Due(Millis(now), Millis(deadline)) <==> deadline <= now
  {
    DueIff(now, deadline);
  }

  lemma PlusIs(time: nat, wait: nat)
    ensures Plus(Millis(time), wait) == Millis(time + wait)
  {
  }

  // The unsigned difference is the elapsed time while less than 2^32 ms passed.
  lemma ElapsedIs(now: nat, since: nat)
    requires since <= now < since + WORD
    ensures Minus(Millis(now), Millis(since)) == now - since
  {
  }

  // ------------------------------------------------------------------
  // Wi-Fi
  // ------------------------------------------------------------------

  const CONNECT_TIMEOUT := 20000
  const INITIAL_RETRY := 10000
  const MAX_RETRY := 60000
  const RADIO_RESET_DELAY := 300

  datatype Phase = Offline | Resetting | Connecting

  datatype Wifi = Wifi(
    phase: Phase,
    nextAttemptAt: nat,
    changedAt: nat,
    interval: nat,
    failures: nat,       // bookkeeping: failed attempts since the last connection
    attempts: nat)       // bookkeeping: attempts started

  // One call of the service: the clock when it starts and when it starts an attempt, and the radio's status.
  datatype Poll = Poll(now: nat, later: nat, connected: bool)

  function Scheduled(w: Wifi, nextAttemptAt: nat): Wifi {
    w.(phase := Offline, nextAttemptAt := nextAttemptAt, failures := w.failures + 1,
       interval := if w.interval >= MAX_RETRY then w.interval
                   else if w.interval * 2 > MAX_RETRY then MAX_RETRY else w.interval * 2)
  }

  // Over true time.
  function Serve(w: Wifi, poll: Poll): Wifi {
    if poll.connected then w.(phase := Offline, nextAttemptAt := poll.now, interval := INITIAL_RETRY, failures := 0)
    else
      match w.phase
      case Resetting =>
        if poll.now >= w.changedAt + RADIO_RESET_DELAY then w.(phase := Connecting, changedAt := poll.now) else w
      case Connecting =>
        if poll.now >= w.changedAt + CONNECT_TIMEOUT then Scheduled(w, poll.now + w.interval) else w
      case Offline =>
        if poll.now >= w.nextAttemptAt then w.(phase := Resetting, changedAt := poll.later, attempts := w.attempts + 1)
        else w
  }

  ghost predicate StandsFor(chip: Wifi, w: Wifi) {
    chip == w.(nextAttemptAt := Millis(w.nextAttemptAt), changedAt := Millis(w.changedAt))
  }

  // A poll is timely when the deadline it looks at is within the reach of the comparison.
  ghost predicate Timely(w: Wifi, now: nat) {
    && (w.phase == Offline ==> -HALF <= now - w.nextAttemptAt < HALF)
    && (w.phase != Offline ==> w.changedAt <= now < w.changedAt + WORD)
  }

  // On clock words, as the firmware computes it.
  function ServeOnWords(c: Wifi, now: Word, later: Word, connected: bool): Wifi
    requires c.nextAttemptAt < WORD && c.changedAt < WORD
  {
    if connected then c.(phase := Offline, nextAttemptAt := now, interval := INITIAL_RETRY, failures := 0)
    else
      match c.phase
      case Resetting =>
        if Minus(now, c.changedAt) >= RADIO_RESET_DELAY then c.(phase := Connecting, changedAt := now) else c
      case Connecting =>
        if Minus(now, c.changedAt) >= CONNECT_TIMEOUT then Scheduled(c, Plus(now, c.interval)) else c
      case Offline =>
        if Due(now, c.nextAttemptAt) then c.(phase := Resetting, changedAt := later, attempts := c.attempts + 1) else c
  }

  // At a timely poll the words go on standing for true time.
  lemma ServeAgrees(chip: Wifi, w: Wifi, poll: Poll)
    requires StandsFor(chip, w) && Timely(w, poll.now)
    ensures StandsFor(ServeOnWords(chip, Millis(poll.now), Millis(poll.later), poll.connected), Serve(w, poll))
  {
    if w.phase == Offline {
      DueWithin(poll.now, w.nextAttemptAt);
    } else {
      ElapsedIs(poll.now, w.changedAt);
      PlusIs(poll.now, w.interval);
    }
  }

  // ------------------------------------------------------------------
  // Runs from boot
  // ------------------------------------------------------------------

  // Polls follow each other in time, each less than 2^31 ms after the one before.
  ghost predicate IsRun(boot: nat, ws: seq<Wifi>, polls: seq<Poll>) {
    && |ws| == |polls| + 1 && ws[0] == Wifi(Resetting, 0, boot, INITIAL_RETRY, 0, 1)
    && (forall i :: 0 <= i < |polls| ==> InTime(boot, polls, i))
    && (forall i :: 0 <= i < |polls| ==> ws[i + 1] == Serve(ws[i], polls[i]))
  }

  ghost predicate InTime(boot: nat, polls: seq<Poll>, i: nat)
    requires i < |polls|
  {
    After(boot, polls, i) <= polls[i].now < Since(boot, polls, i) + HALF && polls[i].now <= polls[i].later
  }

  function Since(boot: nat, polls: seq<Poll>, i: nat): nat
    requires i <= |polls|
  {
    if i == 0 then boot else polls[i - 1].now
  }

  function After(boot: nat, polls: seq<Poll>, i: nat): nat
    requires i <= |polls|
  {
    if i == 0 then boot else polls[i - 1].later
  }

  function Backoff(k: nat): nat {
    var wait := Doubled(k);
    if wait > MAX_RETRY then MAX_RETRY else wait
  }

  // INITIAL_RETRY * 2^k
  function Doubled(k: nat): (wait: nat)
    ensures wait >= INITIAL_RETRY
  {
    if k == 0 then INITIAL_RETRY else 2 * Doubled(k - 1)
  }

  ghost predicate Inv(w: Wifi, last: nat, lastEnd: nat) {
    && (w.phase == Offline ==> last <= w.nextAttemptAt <= last + MAX_RETRY)
    && (w.phase != Offline ==> w.changedAt <= lastEnd && last < w.changedAt + CONNECT_TIMEOUT)
    && w.interval == Backoff(w.failures)
  }

  lemma InvMakesTimely(w: Wifi, last: nat, lastEnd: nat, now: nat)
    requires Inv(w, last, lastEnd) && last <= lastEnd <= now < last + HALF
    ensures Timely(w, now)
  {
  }

  lemma ServeKeepsInv(w: Wifi, last: nat, lastEnd: nat, poll: Poll)
    requires Inv(w, last, lastEnd) && last <= lastEnd <= poll.now <= poll.later
    ensures Inv(Serve(w, poll), poll.now, poll.later)
  {
  }

  lemma {:induction false} RunInv(boot: nat, ws: seq<Wifi>, polls: seq<Poll>, i: nat)
    requires IsRun(boot, ws, polls) && i < |ws|
    ensures Inv(ws[i], Since(boot, polls, i), After(boot, polls, i))
    ensures Since(boot, polls, i) <= After(boot, polls, i)
  {
    if i > 0 {
      var before := i - 1;
      RunInv(boot, ws, polls, before);
      assert InTime(boot, polls, before) && ws[before + 1] == Serve(ws[before], polls[before]);
      ServeKeepsInv(ws[before], Since(boot, polls, before), After(boot, polls, before), polls[before]);
    }
  }

  lemma EveryPollIsTimely(boot: nat, ws: seq<Wifi>, polls: seq<Poll>, i: nat)
    requires IsRun(boot, ws, polls) && i < |polls|
    ensures Timely(ws[i], polls[i].now)
  {
    RunInv(boot, ws, polls, i);
    assert InTime(boot, polls, i);
    InvMakesTimely(ws[i], Since(boot, polls, i), After(boot, polls, i), polls[i].now);
  }

  // The same polls, on clock words from boot.
  ghost predicate IsWordRun(boot: nat, cs: seq<Wifi>, polls: seq<Poll>) {
    && |cs| == |polls| + 1 && cs[0] == Wifi(Resetting, 0, Millis(boot), INITIAL_RETRY, 0, 1)
    && forall i :: 0 <= i < |polls| ==> WordStep(cs[i], polls[i], cs[i + 1])
  }

  ghost predicate WordStep(c: Wifi, poll: Poll, c': Wifi) {
    && c.nextAttemptAt < WORD && c.changedAt < WORD
    && c' == ServeOnWords(c, Millis(poll.now), Millis(poll.later), poll.connected)
  }

  // The wrapping clock loses nothing: in every run whose polls are less than 2^31 ms apart, however long it lasts, the
  // state on clock words stands for the state over true time at every poll.
  lemma {:induction false} WordsStandForTime(boot: nat, ws: seq<Wifi>, cs: seq<Wifi>, polls: seq<Poll>, i: nat)
    requires IsRun(boot, ws, polls) && IsWordRun(boot, cs, polls) && i < |ws|
    ensures StandsFor(cs[i], ws[i])
  {
    if i > 0 {
      var k := i - 1;
      WordsStandForTime(boot, ws, cs, polls, k);
      EveryPollIsTimely(boot, ws, polls, k);
      ServeAgrees(cs[k], ws[k], polls[k]);
      assert WordStep(cs[k], polls[k], cs[k + 1]) && ws[k + 1] == Serve(ws[k], polls[k]);
    }
  }

  // An attempt that times out is followed by a wait of min(10000 * 2^k, 60000) ms, `k` failures after the last
  // connection; a connection starts the count again.
  lemma WaitAfterFailure(boot: nat, ws: seq<Wifi>, polls: seq<Poll>, i: nat)
    requires IsRun(boot, ws, polls) && i < |polls|
    ensures ws[i].phase == Connecting && ws[i + 1].phase == Offline && !polls[i].connected ==>
              && ws[i + 1].failures == ws[i].failures + 1
              && ws[i + 1].nextAttemptAt == polls[i].now + Backoff(ws[i].failures)
    ensures polls[i].connected ==> ws[i + 1].failures == 0 && ws[i + 1].phase == Offline
    ensures ws[i + 1].failures == ws[i].failures
         || polls[i].connected
         || (ws[i].phase == Connecting && ws[i + 1].phase == Offline)
  {
    RunInv(boot, ws, polls, i);
  }

  // On clock words an attempt starts at exactly those polls that find the device offline, unconnected and past its
  // deadline in true time.
  lemma AttemptStartsIff(boot: nat, ws: seq<Wifi>, cs: seq<Wifi>, polls: seq<Poll>, i: nat)
    requires IsRun(boot, ws, polls) && IsWordRun(boot, cs, polls) && i < |polls|
    ensures cs[i].attempts <= cs[i + 1].attempts <= cs[i].attempts + 1
    ensures cs[i + 1].attempts > cs[i].attempts <==>
              cs[i].phase == Offline && !polls[i].connected && polls[i].now >= ws[i].nextAttemptAt
  {
    WordsStandForTime(boot, ws, cs, polls, i);
    WordsStandForTime(boot, ws, cs, polls, i + 1);
    assert ws[i + 1] == Serve(ws[i], polls[i]);
  }

  // While unconnected, a scheduled retry stays scheduled through every poll before its deadline and starts at the
  // first poll at or after it.
  lemma {:induction false} RetryStartsAtFirstPoll(boot: nat, ws: seq<Wifi>, polls: seq<Poll>, i: nat, m: nat)
    requires IsRun(boot, ws, polls) && i <= m < |polls| && ws[i].phase == Offline
    requires forall j :: i <= j <= m ==> !polls[j].connected
    requires forall j :: i <= j < m ==> polls[j].now < ws[i].nextAttemptAt
    requires polls[m].now >= ws[i].nextAttemptAt
    ensures ws[m] == ws[i]
    ensures ws[m + 1].phase == Resetting && ws[m + 1].attempts == ws[i].attempts + 1
    decreases m - i
  {
    if i < m {
      assert ws[i + 1] == Serve(ws[i], polls[i]);
      RetryStartsAtFirstPoll(boot, ws, polls, i + 1, m);
    }
  }

  // The whole of a retry on clock words: after an attempt that timed out, `k` failures after the last connection, the
  // next attempt starts at the first unconnected poll that comes min(10000 * 2^k, 60000) ms or more after the timeout,
  // and at none before.
  lemma FailedAttemptRetries(boot: nat, ws: seq<Wifi>, cs: seq<Wifi>, polls: seq<Poll>, i: nat, m: nat)
    requires IsRun(boot, ws, polls) && IsWordRun(boot, cs, polls) && i < m < |polls|
    requires cs[i].phase == Connecting && cs[i + 1].phase == Offline
    requires forall j :: i <= j <= m ==> !polls[j].connected
    requires forall j :: i < j < m ==> polls[j].now < polls[i].now + Backoff(cs[i].failures)
    ensures cs[m].attempts == cs[i].attempts
    ensures cs[m + 1].attempts > cs[m].attempts <==> polls[m].now >= polls[i].now + Backoff(cs[i].failures)
  {
    WordsStandForTime(boot, ws, cs, polls, i);
    WordsStandForTime(boot, ws, cs, polls, i + 1);
    WordsStandForTime(boot, ws, cs, polls, m);
    WaitAfterFailure(boot, ws, polls, i);
    StaysScheduled(boot, ws, polls, i + 1, m);
    AttemptStartsIff(boot, ws, cs, polls, m);
    assert ws[i + 1] == Serve(ws[i], polls[i]);
  }

  lemma {:induction false} StaysScheduled(boot: nat, ws: seq<Wifi>, polls: seq<Poll>, i: nat, m: nat)
    requires IsRun(boot, ws, polls) && i <= m < |ws| && ws[i].phase == Offline
    requires forall j :: i <= j < m ==> !polls[j].connected && polls[j].now < ws[i].nextAttemptAt
    ensures ws[m] == ws[i]
    decreases m
  {
    if i < m {
      var k := m - 1;
      StaysScheduled(boot, ws, polls, i, k);
      assert ws[k + 1] == Serve(ws[k], polls[k]);
    }
  }

  // The waits: 10, 20 and 40 seconds, and then a minute each time.
  lemma {:induction false} BackoffIs(k: nat)
    ensures Backoff(k) == if k == 0 then 10000 else if k == 1 then 20000 else if k == 2 then 40000 else 60000
    ensures k >= 3 ==> Doubled(k) >= 80000
  {
    if k > 0 {
      BackoffIs(k - 1);
      assert k == 1 ==> Doubled(k - 1) == 10000;
      assert k == 2 ==> Doubled(k - 1) == 20000;
      assert k == 3 ==> Doubled(k - 1) == 40000;
    }
  }

  ghost predicate Unconnected(polls: seq<Poll>, i: nat, m: nat)
    requires m <= |polls|
  {
    forall j :: i <= j < m ==> !polls[j].connected
  }

  // Nothing happens in a phase until its time has passed.
  lemma {:induction false} PhaseLasts(boot: nat, ws: seq<Wifi>, polls: seq<Poll>, i: nat, m: nat, time: nat)
    requires IsRun(boot, ws, polls) && i <= m < |ws| && Unconnected(polls, i, m)
    requires (ws[i].phase == Resetting && time == 300) || (ws[i].phase == Connecting && time == 20000)
    requires forall j :: i <= j < m ==> polls[j].now < ws[i].changedAt + time
    ensures ws[m] == ws[i]
    decreases m
  {
    if i < m {
      var k := m - 1;
      PhaseLasts(boot, ws, polls, i, k, time);
      assert ws[k + 1] == Serve(ws[k], polls[k]);
    }
  }

  // The phases of an attempt on clock words, in the run whose polls find no connection: the radio rests from the start of
  // the attempt until the first poll 300 ms later, and then the attempt lasts until the first poll 20000 ms after that one.
  lemma AttemptLasts(boot: nat, ws: seq<Wifi>, cs: seq<Wifi>, polls: seq<Poll>, i: nat, j: nat, m: nat)
    requires IsRun(boot, ws, polls) && IsWordRun(boot, cs, polls) && i < j < m < |polls| && Unconnected(polls, i, m + 1)
    requires cs[i + 1].attempts > cs[i].attempts
    requires (forall k :: i < k < j ==> polls[k].now < polls[i].later + 300) && polls[j].now >= polls[i].later + 300
    requires forall k :: j < k < m ==> polls[k].now < polls[j].now + 20000
    ensures forall k :: i < k <= j ==> cs[k].phase == Resetting
    ensures forall k :: j < k <= m ==> cs[k].phase == Connecting
    ensures cs[m + 1].phase == if polls[m].now >= polls[j].now + 20000 then Offline else Connecting
  {
    forall k | i <= k <= m + 1 ensures StandsFor(cs[k], ws[k]) { WordsStandForTime(boot, ws, cs, polls, k); }
    assert ws[i + 1] == Serve(ws[i], polls[i]) && ws[j + 1] == Serve(ws[j], polls[j]) && ws[m + 1] == Serve(ws[m], polls[m]);
    forall k | i < k <= j ensures ws[k] == ws[i + 1] { PhaseLasts(boot, ws, polls, i + 1, k, 300); }
    forall k | j < k <= m ensures ws[k] == ws[j + 1] { PhaseLasts(boot, ws, polls, j + 1, k, 20000); }
  }

  // A connection that is lost is tried again at the first poll that sees it gone.
  lemma LostConnectionRetries(boot: nat, ws: seq<Wifi>, cs: seq<Wifi>, polls: seq<Poll>, i: nat)
    requires IsRun(boot, ws, polls) && IsWordRun(boot, cs, polls) && i + 1 < |polls|
    requires polls[i].connected && !polls[i + 1].connected
    ensures cs[i + 2].attempts == cs[i + 1].attempts + 1 && cs[i + 2].failures == 0
  {
    var k := i + 1;
    WordsStandForTime(boot, ws, cs, polls, k);
    WordsStandForTime(boot, ws, cs, polls, k + 1);
    AttemptStartsIff(boot, ws, cs, polls, k);
    assert ws[i + 1] == Serve(ws[i], polls[i]) && ws[k + 1] == Serve(ws[k], polls[k]);
    assert InTime(boot, polls, i) && InTime(boot, polls, k);
  }

  // ------------------------------------------------------------------
  // The Wi-Fi service as code
  // ------------------------------------------------------------------

  class WifiService {
    var phase: Phase
    var nextAttemptAt: Word
    var changedAt: Word
    var interval: nat
    ghost var failures: nat
    ghost var attempts: nat
    ghost var truth: Wifi          // the state over true time
    ghost var last: nat            // when the last poll began
    ghost var lastEnd: nat         // and ended

    ghost function State(): Wifi
      reads this
    {
      Wifi(phase, nextAttemptAt, changedAt, interval, failures, attempts)
    }

    // The words stand for true time.
    ghost predicate Valid()
      reads this
    {
      StandsFor(State(), truth) && Inv(truth, last, lastEnd) && last <= lastEnd
    }

    // Boot, with the first attempt.
    constructor (now: Word, ghost boot: nat)
      requires now == Millis(boot)
      ensures Valid() && truth == Wifi(Resetting, 0, boot, INITIAL_RETRY, 0, 1) && last == lastEnd == boot
    {
      phase, nextAttemptAt, changedAt, interval := Resetting, 0, now, INITIAL_RETRY;
      failures, attempts := 0, 1;
      truth, last, lastEnd := Wifi(Resetting, 0, boot, INITIAL_RETRY, 0, 1), boot, boot;
    }

    method ScheduleNextAttempt(now: Word)
      modifies this`phase, this`nextAttemptAt, this`interval, this`failures
      ensures State() == Scheduled(old(State()), Plus(now, old(interval)))
    {
      phase := Offline;
      nextAttemptAt := Plus(now, interval);
      failures := failures + 1;
      if interval < MAX_RETRY {
        interval := interval * 2;
        if interval > MAX_RETRY {
          interval := MAX_RETRY;
        }
      }
    }

    method StartAttempt(now: Word)
      modifies this`phase, this`changedAt, this`attempts
      ensures State() == old(State()).(phase := Resetting, changedAt := now, attempts := old(attempts) + 1)
    {
      phase := Resetting;
      changedAt := now;
      attempts := attempts + 1;
    }

    method BeginAssociation(now: Word)
      modifies this`phase, this`changedAt
      ensures State() == old(State()).(phase := Connecting, changedAt := now)
    {
      phase := Connecting;
      changedAt := now;
    }

    method Dispatch(now: Word, later: Word, connected: bool)
      modifies this`phase, this`nextAttemptAt, this`changedAt, this`interval, this`failures, this`attempts
      ensures State() == ServeOnWords(old(State()), now, later, connected)
    {
      if connected {
        phase, nextAttemptAt, interval, failures := Offline, now, INITIAL_RETRY, 0;
        return;
      }
      match phase {
        case Resetting =>
          if Minus(now, changedAt) >= RADIO_RESET_DELAY {
            BeginAssociation(now);
          }
        case Connecting =>
          if Minus(now, changedAt) >= CONNECT_TIMEOUT {
            ScheduleNextAttempt(now);
          }
        case Offline =>
          if Due(now, nextAttemptAt) {
            StartAttempt(later);
          }
      }
    }

    // One poll, less than 2^31 ms after the last: what the code does on clock words is what it should over true time,
    // and the next poll may rely on that again.
    method ServiceWiFi(now: Word, later: Word, connected: bool, ghost poll: Poll)
      requires Valid() && lastEnd <= poll.now < last + HALF && poll.now <= poll.later
      requires now == Millis(poll.now) && later == Millis(poll.later) && connected == poll.connected
      modifies this
      ensures Valid() && truth == Serve(old(truth), poll) && last == poll.now && lastEnd == poll.later
    {
      InvMakesTimely(truth, last, lastEnd, poll.now);
      ServeAgrees(State(), truth, poll);
      ServeKeepsInv(truth, last, lastEnd, poll);
      Dispatch(now, later, connected);
      truth, last, lastEnd := Serve(truth, poll), poll.now, poll.later;
    }
  }

  // ------------------------------------------------------------------
  // Retrying a state notification
  // ------------------------------------------------------------------

  const SYNC_RETRY := 10000

  datatype Sync = Sync(pending: bool, nextAttempt: nat, posts: nat)

  datatype Outcome = NoRequest | Refused | Accepted

  function Queued(s: Sync, now: nat): Sync {
    s.(pending := true, nextAttempt := now)
  }

  // Whether a poll tries the request, over true time and on clock words.
  predicate Tries(s: Sync, now: nat, connected: bool) {
    s.pending && connected && now >= s.nextAttempt
  }

  predicate TriesOnWords(s: Sync, now: Word, connected: bool) {
    s.pending && connected && s.nextAttempt < WORD && Due(now, s.nextAttempt)
  }

  // How a tried request leaves the state; `retryAt` is the deadline when it failed.
  function Tried(s: Sync, outcome: Outcome, retryAt: nat): Sync {
    match outcome
    case NoRequest => s.(nextAttempt := retryAt)
    case Refused => s.(nextAttempt := retryAt, posts := s.posts + 1)
    case Accepted => s.(pending := false, posts := s.posts + 1)
  }

  ghost predicate SyncStandsFor(chip: Sync, s: Sync) {
    chip == s.(nextAttempt := Millis(s.nextAttempt))
  }

  // A waiting notification is tried as it should be exactly when the poll is not late by 2^31 ms to 2^32 ms, or by
  // that and a multiple of 2^32 ms: the clock is too short to tell such a late poll from an early one. A deadline is
  // never more than 10000 ms ahead.
  lemma TriesAgreeIff(chip: Sync, s: Sync, now: nat)
    requires SyncStandsFor(chip, s) && s.pending && s.nextAttempt <= now + SYNC_RETRY
    ensures (TriesOnWords(chip, Millis(now), true) <==> Tries(s, now, true)) <==>
              (now < s.nextAttempt || (now - s.nextAttempt) / HALF % 2 == 0)
  {
    DueIff(now, s.nextAttempt);
  }

  // What happens to the notification: it is queued, or the service is called. `later` is the clock after a failed
  // request.
  datatype Event = Enqueue(now: nat) | Poll(now: nat, later: nat, connected: bool, outcome: Outcome)

  function End(e: Event): nat {
    if e.Poll? then e.later else e.now
  }

  function Notify(s: Sync, e: Event): Sync {
    match e
    case Enqueue(now) => Queued(s, now)
    case Poll(now, later, connected, outcome) =>
      if Tries(s, now, connected) then Tried(s, outcome, later + SYNC_RETRY) else s
  }

  function NotifyOnWords(c: Sync, e: Event): Sync {
    match e
    case Enqueue(now) => Queued(c, Millis(now))
    case Poll(now, later, connected, outcome) =>
      if TriesOnWords(c, Millis(now), connected) then Tried(c, outcome, Plus(Millis(later), SYNC_RETRY)) else c
  }

  // The clock can tell a poll that could try the request: it comes less than 2^31 ms after the deadline, or late by a
  // whole number of 2^32 ms and less than 2^31 ms.
  ghost predicate Readable(s: Sync, e: Event) {
    e.Poll? && s.pending && e.connected ==> e.now < s.nextAttempt || (e.now - s.nextAttempt) / HALF % 2 == 0
  }

  // The wrapping clock decides as it should.
  ghost predicate Agree(chip: Sync, s: Sync, e: Event) {
    e.Poll? ==> (TriesOnWords(chip, Millis(e.now), e.connected) <==> Tries(s, e.now, e.connected))
  }

  ghost predicate SyncInv(chip: Sync, s: Sync, last: nat) {
    SyncStandsFor(chip, s) && s.nextAttempt <= last + SYNC_RETRY
  }

  // Whatever the outcome, the deadline set after a try stands for the true one.
  lemma TriedAgrees(chip: Sync, s: Sync, outcome: Outcome, later: nat)
    requires SyncStandsFor(chip, s)
    ensures SyncStandsFor(Tried(chip, outcome, Plus(Millis(later), SYNC_RETRY)), Tried(s, outcome, later + SYNC_RETRY))
  {
    PlusIs(later, SYNC_RETRY);
  }

  lemma NotifyAgreesIff(chip: Sync, s: Sync, last: nat, e: Event)
    requires SyncInv(chip, s, last) && last <= e.now <= End(e)
    ensures Agree(chip, s, e) <==> Readable(s, e)
    ensures Readable(s, e) ==> SyncInv(NotifyOnWords(chip, e), Notify(s, e), End(e))
  {
    if e.Poll? {
      if s.pending { TriesAgreeIff(chip, s, e.now); }
      TriedAgrees(chip, s, e.outcome, e.later);
    }
  }

  // Events follow each other in time.
  ghost predicate IsSyncRun(ss: seq<Sync>, es: seq<Event>) {
    && |ss| == |es| + 1 && ss[0] == Sync(false, 0, 0)
    && (forall i :: 0 <= i < |es| ==> ss[i + 1] == Notify(ss[i], es[i]))
    && (forall i :: 0 <= i < |es| ==> EndBefore(es, i) <= es[i].now <= End(es[i]))
  }

  function EndBefore(es: seq<Event>, i: nat): nat
    requires i <= |es|
  {
    if i == 0 then 0 else End(es[i - 1])
  }

  ghost predicate IsSyncWordRun(cs: seq<Sync>, es: seq<Event>) {
    && |cs| == |es| + 1 && cs[0] == Sync(false, 0, 0)
    && forall i :: 0 <= i < |es| ==> cs[i + 1] == NotifyOnWords(cs[i], es[i])
  }

  ghost predicate AllReadable(ss: seq<Sync>, es: seq<Event>, n: nat)
    requires n <= |es| < |ss|
  {
    forall i :: 0 <= i < n ==> Readable(ss[i], es[i])
  }

  ghost predicate AllAgree(ss: seq<Sync>, cs: seq<Sync>, es: seq<Event>, n: nat)
    requires n <= |es| < |ss| && |es| < |cs|
  {
    forall i :: 0 <= i < n ==> Agree(cs[i], ss[i], es[i])
  }

  // In every run, however late its polls are, the wrapping clock takes all decisions up to a point as true time does
  // if and only if no poll until then was too late for it to read; and up to there the states agree.
  lemma {:induction false} SyncWordsStandForTimeIff(ss: seq<Sync>, cs: seq<Sync>, es: seq<Event>, n: nat)
    requires IsSyncRun(ss, es) && IsSyncWordRun(cs, es) && n <= |es|
    ensures AllAgree(ss, cs, es, n) <==> AllReadable(ss, es, n)
    ensures AllReadable(ss, es, n) ==> SyncInv(cs[n], ss[n], EndBefore(es, n))
  {
    if n > 0 {
      var k := n - 1;
      SyncWordsStandForTimeIff(ss, cs, es, k);
      assert AllReadable(ss, es, n) <==> AllReadable(ss, es, k) && Readable(ss[k], es[k]);
      assert AllAgree(ss, cs, es, n) <==> AllAgree(ss, cs, es, k) && Agree(cs[k], ss[k], es[k]);
      if AllReadable(ss, es, k) {
        NotifyAgreesIff(cs[k], ss[k], EndBefore(es, k), es[k]);
        assert cs[n] == NotifyOnWords(cs[k], es[k]) && ss[n] == Notify(ss[k], es[k]);
      }
    }
  }

  // An input that is not read: queued at the start, and the network first there after 2^31 ms.
  lemma LatePollIsMissed() returns (ss: seq<Sync>, cs: seq<Sync>, es: seq<Event>)
    ensures IsSyncRun(ss, es) && IsSyncWordRun(cs, es) && es == [Enqueue(0), Event.Poll(HALF, HALF, true, Accepted)]
    ensures Tries(ss[1], HALF, true) && !TriesOnWords(cs[1], Millis(HALF), true)
    ensures !ss[2].pending && cs[2].pending
  {
    es := [Enqueue(0), Event.Poll(HALF, HALF, true, Accepted)];
    var s := Sync(false, 0, 0);
    ss := [s, Notify(s, es[0]), Notify(Notify(s, es[0]), es[1])];
    cs := [s, NotifyOnWords(s, es[0]), NotifyOnWords(NotifyOnWords(s, es[0]), es[1])];
  }

  // Such a notification is held back by every poll until 2^32 ms have passed.
  lemma {:induction false} LateNotificationIsHeldBack(cs: seq<Sync>, es: seq<Event>, i: nat, m: nat, due: nat)
    requires IsSyncWordRun(cs, es) && i <= m < |cs| && cs[i].nextAttempt == Millis(due)
    requires forall j :: i <= j < m ==> es[j].Poll? && due + HALF <= es[j].now < due + WORD
    ensures cs[m] == cs[i]
    decreases m
  {
    if i < m {
      LateNotificationIsHeldBack(cs, es, i, m - 1, due);
      DueIff(es[m - 1].now, due);
      assert cs[m] == NotifyOnWords(cs[m - 1], es[m - 1]);
    }
  }

  lemma {:induction false} SyncStaysScheduled(ss: seq<Sync>, es: seq<Event>, i: nat, m: nat)
    requires IsSyncRun(ss, es) && i <= m < |ss|
    requires forall j :: i <= j < m ==> es[j].Poll? && (!es[j].connected || es[j].now < ss[i].nextAttempt)
    ensures ss[m] == ss[i]
    decreases m
  {
    if i < m {
      var k := m - 1;
      SyncStaysScheduled(ss, es, i, k);
      assert ss[k + 1] == Notify(ss[k], es[k]);
    }
  }

  // The whole of a retry on clock words: after a failed request nothing is tried before 10000 ms have passed, and the
  // first connected poll from then on tries it again.
  lemma SyncRetriesAtFirstPoll(ss: seq<Sync>, cs: seq<Sync>, es: seq<Event>, i: nat, m: nat)
    requires IsSyncRun(ss, es) && IsSyncWordRun(cs, es) && i < m < |es|
    requires es[i].Poll? && TriesOnWords(cs[i], Millis(es[i].now), es[i].connected) && es[i].outcome != Accepted
    requires forall j :: i < j <= m ==> es[j].Poll?
    requires forall j :: i < j < m ==> !es[j].connected || es[j].now < es[i].later + 10000
    requires AllReadable(ss, es, m + 1)
    ensures cs[m] == cs[i + 1]
    ensures TriesOnWords(cs[m], Millis(es[m].now), es[m].connected) <==>
              es[m].connected && es[m].now >= es[i].later + 10000
  {
    SyncWordsStandForTimeIff(ss, cs, es, i);
    SyncWordsStandForTimeIff(ss, cs, es, i + 1);
    SyncWordsStandForTimeIff(ss, cs, es, m);
    SyncWordsStandForTimeIff(ss, cs, es, m + 1);
    assert Agree(cs[i], ss[i], es[i]) && Agree(cs[m], ss[m], es[m]);
    assert ss[i + 1] == Notify(ss[i], es[i]);
    SyncStaysScheduled(ss, es, i + 1, m);
  }

  // ------------------------------------------------------------------
  // The notification service as code
  // ------------------------------------------------------------------

  class SyncService {
    var pending: bool
    var nextAttempt: Word
    ghost var posts: nat
    ghost var truth: Sync
    ghost var last: nat

    ghost function State(): Sync
      reads this
    {
      Sync(pending, nextAttempt, posts)
    }

    // A deadline is never more than one retry ahead.
    ghost predicate Valid()
      reads this
    {
      truth.nextAttempt <= last + SYNC_RETRY
    }

    // The clock words stand for true time.
    ghost predicate InStep()
      reads this
    {
      SyncInv(State(), truth, last)
    }

    constructor ()
      ensures Valid() && InStep() && truth == Sync(false, 0, 0) && last == 0
    {
      pending, nextAttempt, posts := false, 0, 0;
      truth, last := Sync(false, 0, 0), 0;
    }

    // Whatever went before, afterwards any connected poll within 2^31 ms tries the notification.
    method QueueSync(now: Word, ghost time: nat)
      requires Valid() && now == Millis(time) && last <= time
      modifies this
      ensures Valid() && State() == NotifyOnWords(old(State()), Enqueue(time))
      ensures truth == Notify(old(truth), Enqueue(time)) && last == time
      ensures old(InStep()) ==> InStep()
      ensures forall t: nat :: time <= t < time + HALF ==> TriesOnWords(State(), Millis(t), true)
    {
      pending := true;
      nextAttempt := now;
      truth, last := Notify(truth, Enqueue(time)), time;
      forall t: nat | time <= t < time + HALF
        ensures TriesOnWords(State(), Millis(t), true)
      {
        DueIff(t, time);
      }
    }

    // One call at any time: as long as the clock is in step, the request is tried as it should be over true time
    // exactly when the poll can be read, and then the deadline after a failure is the true one.
    method ServiceSync(now: Word, later: Word, connected: bool, outcome: Outcome, ghost e: Event) returns (tried: bool)
      requires Valid() && e.Poll? && last <= e.now <= e.later
      requires now == Millis(e.now) && later == Millis(e.later) && connected == e.connected && outcome == e.outcome
      modifies this
      ensures Valid() && State() == NotifyOnWords(old(State()), e) && truth == Notify(old(truth), e) && last == e.later
      ensures tried <==> old(pending) && connected && Due(now, old(nextAttempt))
      ensures pending <==> old(pending) && !(tried && outcome == Accepted)
      ensures nextAttempt == if tried && outcome != Accepted then Plus(later, 10000) else old(nextAttempt)
      ensures old(InStep()) ==> ((tried <==> Tries(old(truth), e.now, connected)) <==> Readable(old(truth), e))
      ensures old(InStep()) && Readable(old(truth), e) ==> InStep()
    {
      if InStep() { NotifyAgreesIff(State(), truth, last, e); }
      truth, last := Notify(truth, e), e.later;
      tried := pending && connected && Due(now, nextAttempt);
      if !tried {
        return;
      }
      if outcome == NoRequest {
        nextAttempt := Plus(later, SYNC_RETRY);
        return;
      }
      posts := posts + 1;
      if outcome == Accepted {
        pending := false;
      } else {
        nextAttempt := Plus(later, SYNC_RETRY);
      }
    }
  }
}
