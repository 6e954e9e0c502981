/**
 The re-entrant event loop. A callback may do anything a script can: register, raise, forget
 everything, or run the loop again. `script` is what the world and the callbacks do, one choice at
 a time; when it ends, everything stops where it stands (`Cut`), so what holds of every script
 holds at every moment of every execution, however deeply nested.
 */
module EventLoop {
  import opened Basics
  import opened Deadlines
  import opened TimerGrid
  import opened EventHistory

  const HEALTH_POLL_MS := 100.0
  const LONGEST_WAIT_MS := 1000.0

  /** What a callback does next. */
  datatype Act =
    | Return
    | Raise
    | RunLoop(duration: real, catches: bool)
    | OnMessage(channel: nat, want: Want, fn: nat)
    | OnTimer(period: real)
    | OnHealth(channel: nat)
    | Forget

  datatype Arrival = NoFrame | Arrives(channel: nat, frame: Frame)

  /** One choice of the world: how much time passes, and whichever of the rest is asked for; `channels`:
      how many a wait is to read; `fails`: a wait or a health sample raises. */
  datatype Choice = Choice(elapsed: Span, act: Act, channels: nat, arrival: Arrival, rung: Rung, fails: bool)

  /** A choice that raises, is refused, or forgets everything. */
  predicate Upsetting(c: Choice) { c.fails || UpsettingAct(c.act) }

  predicate UpsettingAct(act: Act) {
    act.Raise? || act.Forget? || (act.RunLoop? && act.duration < 0.0) || (act.OnTimer? && act.period < 1.0)
  }

  predicate Calm(script: seq<Choice>) { forall i :: 0 <= i < |script| ==> !Upsetting(script[i]) }

  lemma CalmTail(script: seq<Choice>)
    requires script != [] && Calm(script)
    ensures !Upsetting(script[0]) && Calm(script[1..])
  {}

  lemma PollsLast(handlers: seq<nat>, sampled: seq<Sample>, sampled': seq<Sample>, from: nat, at: real)
    requires sampled <= sampled'
    ensures Polled(handlers, sampled, from, at) ==> Polled(handlers, sampled', from, at)
  {
    if Polled(handlers, sampled, from, at) { PolledStill(handlers, handlers, sampled, sampled', from, from, at, at); }
  }

  /** After some turns that were to poll at `due` first and at `next` now. */
  ghost predicate PollsGoOn(handlers: seq<nat>, sampled: seq<Sample>, from: nat, clock0: real, due: real, next: real) {
    next >= due && if next == due then clock0 < due else Polled(handlers, sampled, from, next - HEALTH_POLL_MS)
  }

  lemma PollsNext(handlers: seq<nat>, handlers': seq<nat>, sampled: seq<Sample>, sampled': seq<Sample>, from: nat,
                  clock0: real, clock1: real, due: real, due1: real, next: real, first: bool)
    requires sampled <= sampled' && from <= |sampled| && clock0 <= clock1 && (first ==> due1 == due && clock0 == clock1)
    ensures && (!first ==> PollsGoOn(handlers, sampled, from, clock0, due, due1)) && handlers <= handlers'
            && (next == due1 || next >= due1 + HEALTH_POLL_MS)
            && (if next == due1 then clock1 < due1 else Polled(handlers', sampled', |sampled|, next - HEALTH_POLL_MS))
            ==>
              PollsGoOn(handlers, sampled', from, clock0, due, next)
  {
    if && (!first ==> PollsGoOn(handlers, sampled, from, clock0, due, due1)) && handlers <= handlers'
       && (next == due1 || next >= due1 + HEALTH_POLL_MS)
       && (if next == due1 then clock1 < due1 else Polled(handlers', sampled', |sampled|, next - HEALTH_POLL_MS))
    {
      if next != due1 {
        PolledStill(handlers, handlers', sampled', sampled', from, |sampled|,
                    next - HEALTH_POLL_MS, next - HEALTH_POLL_MS);
      } else if due1 != due {
        PollsLast(handlers, sampled, sampled', from, next - HEALTH_POLL_MS);
      }
    }
  }

  /** What one more turn, from `b` to `c`, leaves true of all of them. */
  lemma AfterTurn(a: Marks, b: Marks, c: Marks, u: Up, clock0: real, clock1: real, due: real, due1: real, next: real,
                  first: bool, end: real)
    requires Grew(a, b) && Grew(b, c) && b.log.firing == a.log.firing && clock0 <= clock1
    requires first ==> due1 == due && clock0 == clock1
    ensures Grew(a, c) && (u in b.ups ==> u in c.ups) && (c.upsets == a.upsets ==> b.upsets == a.upsets)
    ensures c.upsets == a.upsets ==>
              (forall i :: i in a.onTimer ==> i in b.onTimer) && (a.onHealth != [] ==> b.onHealth != [])
    ensures && c.upsets == a.upsets && (!first ==> PollsGoOn(a.onHealth, b.sampled, |a.sampled|, clock0, due, due1))
            && (next == due1 || next >= due1 + HEALTH_POLL_MS)
            && (if next == due1 then clock1 < due1
                else Polled(b.onHealth, c.sampled, |b.sampled|, next - HEALTH_POLL_MS))
            ==>
              && PollsGoOn(a.onHealth, c.sampled, |a.sampled|, clock0, due, next)
              && (next >= end && due <= clock0 ==> Polled(a.onHealth, c.sampled, |a.sampled|, end - HEALTH_POLL_MS))
  {
    GrewOn(a, b, c);
    GrewSeqs(a, b);
    GrewSeqs(b, c);
    hide Grew, Polled, PollsGoOn;
    StillThere(b.ups, c.ups, u);
    InPrefix(a.onTimer, b.onTimer);
    PollsNext(a.onHealth, b.onHealth, b.sampled, c.sampled, |a.sampled|, clock0, clock1, due, due1, next, first);
    PollsEnd(a.onHealth, c.sampled, |a.sampled|, clock0, due, next, end);
  }

  lemma PollsEnd(handlers: seq<nat>, sampled: seq<Sample>, from: nat, clock0: real, due: real, next: real, end: real)
    ensures PollsGoOn(handlers, sampled, from, clock0, due, next) && next >= end && due <= clock0 ==>
              Polled(handlers, sampled, from, end - HEALTH_POLL_MS)
  {
    if PollsGoOn(handlers, sampled, from, clock0, due, next) && next >= end && due <= clock0 {
      PolledStill(handlers, handlers, sampled, sampled, from, from, end - HEALTH_POLL_MS, next - HEALTH_POLL_MS);
    }
  }

  lemma InPrefix(a: seq<nat>, b: seq<nat>)
    ensures a <= b ==> forall i :: i in a ==> i in b
  {}

  /** What has to happen next: a callback just accounted for is to begin, or what a callback chose is to be done. */
  datatype Duty = Begin | Do(act: Act)

  /** Which of its choices answers a wait's call that may bring a frame: with one channel, or without a budget, the
      one after its first reading. */
  function CallAt(channels: nat, budget: real): nat { if channels == 1 || budget <= 0.0 then 1 else 2 }

  /** The wait makes that call. */
  predicate Calls(script: seq<Choice>, budget: real) {
    && script != [] && script[0].channels > 0
    && var n := CallAt(script[0].channels, budget); |script| > n && (n == 2 ==> script[1].elapsed < budget)
  }

  /** And the world brings a frame by it. */
  predicate Brings(script: seq<Choice>, budget: real) {
    && budget > 0.0 && Calls(script, budget)
    && var c := script[CallAt(script[0].channels, budget)]; c.arrival.Arrives? && !c.fails
  }

  /** How such a wait, begun at `clock`, takes it. */
  function TakenBy(script: seq<Choice>, clock: real, at: real, deadline: real, budget: real): Up
    requires Brings(script, budget)
  {
    var start, one := clock + script[0].elapsed, script[0].channels == 1;
    TookFrame(at, deadline, budget, start, script[0].channels, if one then start else start + script[1].elapsed,
              if one then Whole(budget) else 0)
  }

  function NotLess(t: real): real { if t > 0.0 then t else 0.0 }

  /** What a run with no timers and no health handlers asks of a wait. */
  function Left(now: real, deadline: real): real {
    if deadline - now < LONGEST_WAIT_MS then deadline - now else LONGEST_WAIT_MS
  }

  /** A turn of a run with nothing else to do, in which no time passes before the wait. */
  predicate TurnBrings(script: seq<Choice>, clock: real, deadline: real) {
    AtOnce(script, 3) && clock < deadline && Brings(script[3..], Left(clock, deadline))
  }

  function TurnTakes(script: seq<Choice>, clock: real, deadline: real): Up
    requires TurnBrings(script, clock, deadline)
  {
    TakenBy(script[3..], clock, clock, deadline, Left(clock, deadline))
  }

  /** Such a run, which reads the clock twice before its first turn. */
  predicate RunBrings(script: seq<Choice>, clock: real, duration: real) {
    AtOnce(script, 2) && TurnBrings(script[2..], clock, clock + duration)
  }

  predicate AtOnce(script: seq<Choice>, n: nat) {
    n <= |script| && forall i :: 0 <= i < n ==> script[i].elapsed == 0.0
  }

  lemma TurnBegins(script: seq<Choice>, clock: real, deadline: real)
    requires TurnBrings(script, clock, deadline)
    ensures clock < deadline && script != []
  {}

  lemma StillThere(ups: seq<Up>, ups': seq<Up>, u: Up)
    requires ups <= ups'
    ensures u in ups ==> u in ups'
  {
    if i :| 0 <= i < |ups| && ups[i] == u { assert ups'[i] == u; }
  }

  datatype Status = Done | Raised | Cut

  /** A frame to come, and when. */
  datatype Coming = Coming(at: real, channel: nat, frame: Frame)

  predicate ByTime(arrivals: seq<Coming>) {
    forall i, j :: 0 <= i < j < |arrivals| ==> arrivals[i].at <= arrivals[j].at
  }

  /** The frames taken up are the first that came, in order. */
  ghost predicate FirstCame(taken: seq<TakenUp>, arrivals: seq<Coming>) {
    && |taken| <= |arrivals|
    && forall i :: 0 <= i < |taken| ==> taken[i].channel == arrivals[i].channel && taken[i].frame == arrivals[i].frame
  }

  lemma NothingCame(arrivals: seq<Coming>)
    ensures FirstCame(NOTHING_DISPATCHED.taken, arrivals)
  {}

  lemma NoneBefore(arrivals: seq<Coming>, i: nat, t: real)
    requires ByTime(arrivals) && i < |arrivals| && arrivals[i].at >= t
    ensures forall j :: i <= j < |arrivals| ==> arrivals[j].at >= t
  {}

  class Loop {
    /** Whether the clock moves in callbacks and waits only, and a wait brings the first frame to come on the
        channels read, as soon as it does: the hooks the loop's own tests give it. Otherwise time passes anywhere, and
        the script says what a wait brings. */
    const ideal: bool
    const arrivals: seq<Coming>
    var clock: real
    var script: seq<Choice>
    var onMsg: seq<Handler>
    var health: seq<Health>    // every health handler ever registered
    var onHealth: seq<nat>     // those not forgotten
    var timers: seq<Timer>     // every timer ever registered
    var onTimer: seq<nat>      // those not forgotten
    var pending: seq<Entry>
    var serials: nat           // frames taken up so far: what tells one entry from another
    ghost var dispatch: Dispatch
    ghost var log: TimerLog
    ghost var told: seq<seq<Rung>>
    ghost var sampled: seq<Sample>
    ghost var ups: seq<Up>
    ghost var upsets: nat      // exceptions and forgettings so far
    ghost var reached: real    // when the last callback ended
    ghost var owing: Option<Duty>
    ghost var open: nat        // callbacks begun and not ended
    ghost var last: Act        // what a callback chose last

    /** The accounts, whatever is owing. */
    ghost predicate Sound()
      reads this`pending, this`dispatch, this`upsets, this`serials, this`timers, this`log, this`onTimer
      reads this`health, this`told, this`sampled, this`onHealth, this`ups
    {
      && FramesOk(pending, dispatch, upsets) && serials == |dispatch.taken|
      && TimersOk(timers, log)
      && HealthOk(health, told, sampled)
      && UpsOk(ups)
      && (ideal ==> ByTime(arrivals) && FirstCame(dispatch.taken, arrivals))
      && (forall i :: 0 <= i < |onTimer| ==> onTimer[i] < |timers|)
      && (forall i :: 0 <= i < |onHealth| ==> onHealth[i] < |health|)
    }

    ghost predicate Valid()
      reads this
    {
      Sound() && owing.None? && reached <= clock
    }

    ghost function Mark(): Marks
      reads this`timers, this`log, this`told, this`sampled, this`dispatch, this`ups
      reads this`onMsg, this`onTimer, this`onHealth, this`upsets
    {
      Marks(timers, log, told, sampled, dispatch.taken, ups, onMsg, onTimer, onHealth, upsets)
    }

    /** What any stretch of execution leaves true of what was there before it. Nothing goes but by forgetting. */
    twostate predicate Onward()
      reads this
    {
      && |script| <= |old(script)| && clock >= old(clock) && reached >= old(reached)
      && |timers| >= |old(timers)| && |health| >= |old(health)| && Grew(old(Mark()), Mark())
    }

    /** What it also leaves true unless it was cut off: no callback was left open, and nothing is
        pending that was not pending before. */
    twostate predicate Kept()
      reads this
    {
      && log.firing == old(log).firing && open == old(open)
      && (pending == [] || (old(pending) != [] && pending[0].serial == old(pending)[0].serial))
    }

    /** Nothing is upset, and nothing raises, but by a choice that upsets. */
    twostate predicate Untroubled(st: Status)
      reads this
    {
      Calm(old(script)) ==> Calm(script) && upsets == old(upsets) && st != Raised
    }

    /** How a stretch may end: cut off only where the script ends, inside a callback of its own. */
    twostate predicate Ran(st: Status)
      reads this
    {
      Onward() && Untroubled(st) && if st == Cut then script == [] && open > old(open) else Kept()
    }

    /** The same of one that may be cut off between its own callbacks too. */
    twostate predicate RanOn(st: Status)
      reads this
    {
      Onward() && Untroubled(st) && if st == Cut then script == [] && open >= old(open) else Kept()
    }

    /** And of one thing a callback does, which may upset by itself. */
    twostate predicate Did(act: Act, st: Status)
      reads this
    {
      && Onward() && (if UpsettingAct(act) then upsets > old(upsets) else Untroubled(st))
      && if st == Cut then script == [] && open >= old(open) else Kept()
    }

    /** Every timer of these is past `t`, or inside its own callback. */
    ghost predicate TimersPast(ts: seq<nat>, t: real)
      reads this`timers, this`log
    {
      forall i :: i in ts ==> i < |timers| && (i in log.firing || timers[i].due > t)
    }

    /** The same, at `t` or past it. */
    ghost predicate TimersAt(ts: seq<nat>, t: real)
      reads this`timers, this`log
    {
      forall i :: i in ts ==> i < |timers| && (i in log.firing || timers[i].due >= t)
    }

    /** Every timer of these that was due before `t`, and not inside its own callback, was fired since. */
    ghost predicate FiredSince(ts: seq<nat>, before: seq<Timer>, past: TimerLog, t: real)
      reads this`log
    {
      forall i :: i in ts && i < |before| && i !in past.firing && before[i].due < t ==>
        FiredTimes(log.fires, i) > FiredTimes(past.fires, i)
    }

    /** Handlers registered before were polled since, a hundred milliseconds before the next poll at the latest, if
        the next poll has moved; and if not it was not due. */
    twostate predicate PollsKept(due: real, next: real)
      reads this
    {
      upsets == old(upsets) && old(onHealth) != [] ==>
        if next == due then old(clock) < due
        else Polled(old(onHealth), sampled, |old(sampled)|, next - HEALTH_POLL_MS)
    }

    /** With ideal hooks: time has passed only in callbacks. */
    twostate predicate Steady()
      reads this
    {
      ideal ==> clock == old(clock) || reached == clock
    }

    /** Every frame that came before `t` was taken up. */
    predicate AllRead(t: real)
      reads this`serials
    {
      forall i :: serials <= i < |arrivals| ==> arrivals[i].at >= t
    }

    /** Nothing to fire, poll or dispatch. */
    predicate Idle()
      reads this
    {
      onTimer == [] && onHealth == [] && pending == []
    }

    constructor (choices: seq<Choice>, best: bool, coming: seq<Coming>)
      requires best ==> ByTime(coming)
      ensures Valid() && script == choices && clock == 0.0 && upsets == 0 && log.firing == [] && Idle()
      ensures open == 0 && sampled == []
      ensures ideal == best && arrivals == coming
    {
      hide FirstCame, ByTime, FramesOk, TimersOk, HealthOk, UpsOk;
      ideal, arrivals, reached := best, coming, 0.0;
      clock, script := 0.0, choices;
      onMsg, health, onHealth, timers, onTimer, pending := [], [], [], [], [], [];
      dispatch, log := NOTHING_DISPATCHED, NOTHING_FIRED;
      told, sampled, ups, upsets, serials, owing, open, last := [], [], [], 0, 0, None, 0, Return;
      new;
      NothingYet();
      NothingCame(coming);
    }

    method Next() returns (c: Choice)
      requires script != []
      modifies this`script, this`clock
      ensures script == old(script)[1..] && clock == old(clock) + c.elapsed && c == old(script)[0]
      ensures Calm(old(script)) ==> Calm(script) && !Upsetting(c)
    {
      if Calm(script) { CalmTail(script); }
      c := script[0];
      script := script[1..];
      clock := clock + c.elapsed;
    }

    /** What happens outside callbacks and waits. */
    method Beside() returns (c: Choice)
      requires script != []
      modifies this`script, this`clock
      ensures script == old(script)[1..] && c == old(script)[0]
      ensures clock == if ideal then old(clock) else old(clock) + c.elapsed
      ensures Calm(old(script)) ==> Calm(script) && !Upsetting(c)
    {
      if Calm(script) { CalmTail(script); }
      c := script[0];
      script := script[1..];
      if !ideal { clock := clock + c.elapsed; }
    }

    /** The clock: it stands still once the script has ended. */
    method Now() returns (now: real)
      modifies this`script, this`clock
      ensures |script| <= |old(script)| && now == clock >= old(clock)
      ensures ideal ==> clock == old(clock)
      ensures old(script) != [] ==> script == old(script)[1..]
      ensures old(script) != [] && !ideal ==> clock == old(clock) + old(script)[0].elapsed
      ensures old(script) == [] ==> script == [] && clock == old(clock)
      ensures Calm(old(script)) ==> Calm(script)
    {
      if script != [] { var _ := Beside(); }
      now := clock;
    }

    // -- timers

    method PastGridOf(t: nat, at: real)
      requires Valid() && t < |timers|
      modifies this`timers, this`log
      ensures Valid() && |timers| == |old(timers)| && timers[t].due > at && timers[t].due >= old(timers)[t].due
      ensures timers == MovedTo(old(timers), t, timers[t].due)
      ensures log.firing == old(log).firing && log.fires == old(log).fires
      ensures log.grid[t].base == old(log).grid[t].base && |log.grid| == |timers|
      ensures Sound()
      ensures old(timers)[t].due <= at ==> log.grid[t].point > old(log).grid[t].point
    {
      hide FramesOk, HealthOk, UpsOk, FiringOk, FiresOk, FiresMove, Point;
      var point := TimerMoved(timers, log, t, at);
      var due := PastGrid(timers[t].due, timers[t].period, at);
      timers := timers[t := timers[t].(due := due)];
      log := LogAt(log, t, point);
    }

    /** On its grid before the call, so that a run inside it neither fires it again nor waits on it;
        and again after, so that points a long callback ran over are skipped. */
    method Fire(t: nat, seen: real) returns (st: Status)
      requires Valid() && t < |timers| && !timers[t].active && timers[t].due <= seen <= clock
      modifies this
      ensures Valid() && Ran(st)
      ensures st != Cut ==>
                Steady() && timers[t].due > clock && FiredTimes(log.fires, t) > FiredTimes(old(log).fires, t)
      decreases |script|, 1, 0
    {
      hide FirstCame, ByTime, FramesOk, HealthOk, UpsOk, TimersOk, FiredTimes, Calm, Grew, Sound;
      var now := Now();
      Enter(t, seen, now);
      ghost var mark1 := Mark();
      st := Callback();
      ghost var mark2 := Mark();
      if st != Cut { MoveOn(t); }
      FireGrew(old(Mark()), mark1, mark2, Mark(), t);
    }

    /** Out of its callback, past the points that ran over. */
    method MoveOn(t: nat)
      requires Valid() && log.firing != [] && log.firing[|log.firing| - 1] == t
      modifies this`timers, this`log, this`script, this`clock
      ensures Valid() && t < |timers| == |old(timers)| && log.firing == old(log).firing[..|old(log).firing| - 1]
      ensures log.fires == old(log).fires && timers[t].due > clock
      ensures forall k :: 0 <= k < |timers| ==>
                timers[k].period == old(timers)[k].period && timers[k].due >= old(timers)[k].due
      ensures forall k :: 0 <= k < |timers| && k != t ==> timers[k].due == old(timers)[k].due
      ensures |script| <= |old(script)| && clock >= old(clock) && (ideal ==> clock == old(clock))
      ensures Calm(old(script)) ==> Calm(script)
    {
      hide FirstCame, ByTime, FramesOk, HealthOk, UpsOk, TimersOk, FiredTimes, Calm, Grew;
      Leave(t);
      var now := Now();
      PastGridOf(t, now);
    }

    method Enter(t: nat, seen: real, now: real)
      requires Valid() && t < |timers| && !timers[t].active && timers[t].due <= seen <= now
      modifies this`timers, this`log, this`owing
      ensures Sound() && owing == Some(Begin) && reached <= clock
      ensures |timers| == |old(timers)| && log.firing == old(log).firing + [t]
      ensures Grew(old(Mark()), Mark())
      ensures FiredTimes(log.fires, t) > FiredTimes(old(log).fires, t)
    {
      hide FirstCame, ByTime, FramesOk, HealthOk, UpsOk, FiredTimes, OnGrid, FiringOk, FiresOk, FiresMove, Point;
      FiresBehind(timers, log, t);
      ghost var f := EventHistory.Fire(t, log.grid[t].point, seen, log.firing);
      PastGridOf(t, now);
      TimerFired(timers, log, f);
      OneMoreFire(log.fires, f);
      timers := timers[t := timers[t].(active := true)];
      log := Fired(log, f);
      owing := Some(Begin);
    }

    method Leave(t: nat)
      requires Valid() && log.firing != [] && log.firing[|log.firing| - 1] == t
      modifies this`timers, this`log
      ensures Valid() && t < |timers| == |old(timers)| && log.firing == old(log).firing[..|old(log).firing| - 1]
      ensures log.fires == old(log).fires
      ensures forall k :: 0 <= k < |timers| ==>
                timers[k].period == old(timers)[k].period && timers[k].due == old(timers)[k].due
    {
      hide FirstCame, ByTime, FramesOk, HealthOk, UpsOk, OnGrid, FiresOk, FiresMove, FiringOk;
      TimerReturned(timers, log, t);
      timers := timers[t := timers[t].(active := false)];
      log := log.(firing := log.firing[..|log.firing| - 1]);
    }

    /** One of them. */
    method FireIfDue(t: nat, now: real, ghost at: real, ghost deadline: real) returns (st: Status)
      requires Valid() && t < |timers| && now <= clock && at < deadline
      modifies this
      ensures Valid() && Ran(st) && (st != Cut ==> Steady())
      ensures st == Done ==> t < |timers| && (t in log.firing || timers[t].due > now)
      decreases |script|, 1, 1
    {
      hide FirstCame, ByTime, FramesOk, HealthOk, UpsOk, TimersOk, FiredTimes, Calm, Grew, Sound;
      st := Done;
      GrewNone(Mark());
      Facts();
      if !timers[t].active && now >= timers[t].due {
        NoteUp(FiredTimer(at, deadline));
        ghost var mark1 := Mark();
        st := Fire(t, now);
        GrewOn(old(Mark()), mark1, Mark());
      }
    }

    /** The timers due at `now`, those registered when it began: none is left out but one inside its
        own callback, or, when it is `over`, for the deadline. */
    method FireDue(now: real, deadline: real) returns (st: Status, over: bool)
      requires Valid() && now <= clock
      modifies this
      ensures Valid() && Ran(st) && (st != Cut ==> Steady())
      ensures st == Done && !over ==> TimersPast(old(onTimer), now)
      ensures over ==> st == Done && clock >= deadline
      ensures old(onTimer) == [] ==> st == Done && unchanged(this)
      decreases |script|, 2
    {
      hide FirstCame, ByTime, FramesOk, HealthOk, UpsOk, TimersOk, FiredTimes, Calm, Grew;
      over := false;
      var snapshot := onTimer;
      var i := 0;
      GrewNone(Mark());
      while i < |snapshot|
        invariant 0 <= i <= |snapshot| && Valid() && Onward() && Untroubled(Done) && Kept() && Steady()
        invariant forall k :: 0 <= k < |snapshot| ==> snapshot[k] < |timers|
        invariant TimersPast(snapshot[..i], now)
        invariant snapshot == [] ==> unchanged(this)
      {
        var at := Now();
        if at >= deadline { return Done, true; }
        var t := snapshot[i];
        ghost var mark1 := Mark();
        st := FireIfDue(t, now, at, deadline);
        GrewOn(old(Mark()), mark1, Mark());
        GrewTimers(mark1, Mark());
        if st != Done { return; }
        assert snapshot[..i + 1] == snapshot[..i] + [t];
        i := i + 1;
      }
      assert snapshot[..i] == snapshot;
      st := Done;
    }

    // -- health

    /** Sampled per handler: a nested run cannot leave it stale. */
    method Sample() returns (s: Rung, fails: bool)
      modifies this`script, this`clock
      ensures |script| <= |old(script)| && clock >= old(clock) && (ideal ==> clock == old(clock))
      ensures Calm(old(script)) ==> Calm(script) && !fails
      ensures old(script) == [] ==> s == 0 && !fails
      ensures old(script) != [] ==> s == old(script)[0].rung && fails == old(script)[0].fails
    {
      s, fails := 0, false;
      if script != [] {
        var c := Beside();
        s, fails := c.rung, c.fails;
      }
    }

    method PollHealth(deadline: real) returns (st: Status, over: bool)
      requires Valid()
      modifies this
      ensures Valid() && Ran(st) && (st != Cut ==> Steady())
      ensures st == Done && !over ==> Polled(old(onHealth), sampled, |old(sampled)|, old(clock))
      ensures over ==> st == Done && clock >= deadline
      decreases |script|, 2
    {
      hide FirstCame, ByTime, FramesOk, TimersOk, HealthOk, UpsOk, FiredTimes, Calm, Polled, Grew;
      hide SampledSince;
      var snapshot := onHealth;
      over := false;
      var i := 0;
      GrewNone(Mark());
      NonePolled(sampled, |sampled|, clock);
      while i < |snapshot|
        invariant 0 <= i <= |snapshot| && Valid() && Onward() && Untroubled(Done) && Kept() && Steady()
        invariant forall k :: 0 <= k < |snapshot| ==> snapshot[k] < |health|
        invariant Polled(snapshot[..i], sampled, |old(sampled)|, old(clock))
      {
        var at := Now();
        if at >= deadline { return Done, true; }
        var h := snapshot[i];
        ghost var mark1, sampled1, clock1 := Mark(), sampled, clock;
        st := PollOne(h, at, deadline);
        GrewOn(old(Mark()), mark1, Mark());
        GrewSeqs(mark1, Mark());
        GrewSeqs(old(Mark()), mark1);
        if st != Done { return; }
        SampledStill(h, sampled, sampled, |old(sampled)|, |sampled1|, old(clock), clock1);
        OneMorePolled(snapshot[..i], sampled1, sampled, h, |old(sampled)|, old(clock));
        assert snapshot[..i + 1] == snapshot[..i] + [h];
        i := i + 1;
      }
      assert snapshot[..i] == snapshot;
      st := Done;
    }

    /** One handler, sampled now, and told what that shows. */
    method PollOne(h: nat, at: real, deadline: real) returns (st: Status)
      requires Valid() && h < |health| && at < deadline
      modifies this
      ensures Valid() && Ran(st) && (st != Cut ==> Steady())
      ensures st == Done ==> SampledSince(h, sampled, |old(sampled)|, old(clock))
      decreases |script|, 1
    {
      hide FirstCame, ByTime, FramesOk, TimersOk, HealthOk, UpsOk, FiredTimes, Calm, Grew, Sound;
      GrewNone(Mark());
      var fails, news;
      fails, news := SampleInTime(h, at, deadline);
      if fails { return Raised; }
      ghost var mark1, sampled1 := Mark(), sampled;
      st := Done;
      if news {
        st := Callback();
        GrewOn(old(Mark()), mark1, Mark());
        GrewSeqs(mark1, Mark());
      }
      SampledStill(h, sampled1, sampled, |old(sampled)|, |old(sampled)|, old(clock), old(clock));
    }

    /** It, with its run's deadline; a sample that raises upsets. */
    method SampleInTime(h: nat, ghost at: real, ghost deadline: real) returns (fails: bool, news: bool)
      requires Valid() && h < |health| && at < deadline
      modifies this`script, this`clock, this`health, this`told, this`sampled, this`owing, this`ups, this`upsets
      ensures Sound() && owing == (if news then Some(Begin) else None) && |health| == |old(health)| && reached <= clock
      ensures |script| <= |old(script)| && clock >= old(clock) && (ideal ==> clock == old(clock))
      ensures Calm(old(script)) ==> Calm(script) && !fails && upsets == old(upsets)
      ensures Grew(old(Mark()), Mark()) && (fails ==> !news)
      ensures !fails ==> SampledSince(h, sampled, |old(sampled)|, old(clock))
    {
      hide FirstCame, ByTime, FramesOk, TimersOk, HealthOk, UpsOk, FiredTimes, Calm, Grew, Sound;
      NoteUp(SampledHealth(at, deadline));
      ghost var mark0 := Mark();
      fails, news := SampleAndTell(h);
      ghost var mark1 := Mark();
      GrewOn(old(Mark()), mark0, mark1);
      if fails {
        NoteUpset();
        GrewOn(old(Mark()), mark1, Mark());
      } else {
        assert sampled[|old(sampled)|].handler == h;
      }
    }

    /** The sample, and the account of what it tells: a state known and new to the handler. */
    method SampleAndTell(h: nat) returns (fails: bool, news: bool)
      requires Valid() && h < |health|
      modifies this`script, this`clock, this`health, this`told, this`sampled, this`owing
      ensures Sound() && owing == (if news then Some(Begin) else None) && |health| == |old(health)| && reached <= clock
      ensures |script| <= |old(script)| && clock >= old(clock) && (ideal ==> clock == old(clock))
      ensures Calm(old(script)) ==> Calm(script) && !fails
      ensures Grew(old(Mark()), Mark())
      ensures fails == (old(script) != [] && old(script)[0].fails)
      ensures fails ==> sampled == old(sampled) && !news
      ensures !fails ==>
                var rung := if old(script) == [] then 0 else old(script)[0].rung;
                sampled == old(sampled) + [EventHistory.Sample(h, rung, clock)]
    {
      hide FirstCame, ByTime, FramesOk, TimersOk, UpsOk, FiredTimes, Calm, HealthOk;
      GrewNone(Mark());
      news := false;
      var s;
      s, fails := Sample();
      if fails { return; }
      HealthSampled(health, told, sampled, h, s, clock);
      SaidIsThere(health, told, sampled, h);
      sampled := sampled + [EventHistory.Sample(h, s, clock)];
      news := s != 0 && s != health[h].said;
      if news {
        health, told := health[h := health[h].(said := s)], told[h := told[h] + [s]];
        owing := Some(Begin);
      }
    }

    // -- frames

    /** It is the next that comes. */
    predicate ComesNext(channel: nat, frame: Frame)
      reads this
    {
      serials < |arrivals| && arrivals[serials].channel == channel && arrivals[serials].frame == frame
    }

    /** Takes a frame up: never while another is still pending. */
    method TakeFrame(channel: nat, frame: Frame)
      requires Valid() && pending == [] && (ideal ==> ComesNext(channel, frame))
      modifies this`pending, this`dispatch, this`serials
      ensures Valid() && |pending| == 1 && pending[0].serial == old(serials) && serials == old(serials) + 1
      ensures pending[0].handlers == Matching(onMsg, channel, frame)
      ensures dispatch.taken == old(dispatch).taken + [TakenUp(channel, frame, onMsg)] && Grew(old(Mark()), Mark())
    {
      hide TimersOk, HealthOk, UpsOk, Grew;
      var handlers := Matching(onMsg, channel, frame);
      ghost var t := TakenUp(channel, frame, onMsg);
      FrameTakenUp(dispatch, t, upsets);
      pending := [Entry(serials, frame, handlers, 0)];
      serials := serials + 1;
      dispatch := TakeUp(dispatch, t);
      GrewBeside(old(Mark()), Mark());
    }

    /** The next handler is passed before it is called. */
    method PassHandler()
      requires Valid() && pending != [] && pending[0].next < |pending[0].handlers|
      modifies this`pending, this`dispatch, this`owing
      ensures Sound() && owing == Some(Begin) && reached <= clock
      ensures pending != [] && pending[0] == old(pending)[0].(next := old(pending)[0].next + 1)
      ensures dispatch.taken == old(dispatch).taken
    {
      hide TimersOk, HealthOk, UpsOk;
      OnePending(pending, dispatch, upsets);
      HandlerCalled(pending[0], dispatch, upsets);
      dispatch := Called(dispatch, pending[0].serial);
      pending := [pending[0].(next := pending[0].next + 1)];
      owing := Some(Begin);
    }

    method DropDone()
      requires Valid() && pending != [] && pending[0].next >= |pending[0].handlers|
      modifies this`pending
      ensures Valid() && pending == []
    {
      hide TimersOk, HealthOk, UpsOk;
      OnePending(pending, dispatch, upsets);
      FrameDone(pending[0], dispatch, upsets);
      pending := [];
    }

    /** The pending frame's dispatch ends here, for an exception or a forgetting. */
    method DropCut()
      requires Valid()
      modifies this`pending, this`dispatch, this`upsets
      ensures Valid() && pending == [] && upsets == old(upsets) + 1 && dispatch.taken == old(dispatch).taken
      ensures Grew(old(Mark()), Mark())
    {
      hide TimersOk, HealthOk, UpsOk, Grew;
      if pending != [] {
        OnePending(pending, dispatch, upsets);
        FrameCut(pending[0], dispatch, upsets);
        dispatch := dispatch.(cut := dispatch.cut + {pending[0].serial});
      } else {
        MoreUpsets(pending, dispatch, upsets, upsets + 1);
      }
      pending, upsets := [], upsets + 1;
      GrewBeside(old(Mark()), Mark());
    }

    /** Runs the remaining handlers of what is pending. A handler that raises ends its frame's
        dispatch, if that frame is still the one pending. */
    method DispatchPending() returns (st: Status)
      requires Valid()
      modifies this
      ensures Valid() && Ran(st) && (st != Cut ==> Steady())
      ensures st != Cut ==> pending == []
      ensures old(pending) == [] ==> st == Done && unchanged(this)
      decreases |script|, 1
    {
      hide FirstCame, ByTime, FramesOk, TimersOk, HealthOk, UpsOk, FiredTimes, Calm, Grew, Sound;
      GrewNone(Mark());
      while pending != []
        invariant Valid() && Onward() && Untroubled(Done) && Kept() && Steady()
        invariant old(pending) == [] ==> unchanged(this)
        decreases |script|, |pending|
      {
        var entry := pending[0];
        if entry.next >= |entry.handlers| {
          DropDone();
          continue;
        }
        ghost var mark1 := Mark();
        PassHandler();
        st := Callback();
        GrewOn(old(Mark()), mark1, Mark());
        if st == Cut { return; }
        if st == Raised {
          if pending != [] && pending[0].serial == entry.serial {
            ghost var mark2 := Mark();
            DropCut();
            GrewOn(old(Mark()), mark2, Mark());
          }
          return;
        }
      }
      st := Done;
    }

    // -- callbacks

    /** What a callback chooses next. */
    method Draw() returns (c: Choice)
      requires Valid() && script != []
      modifies this`script, this`clock, this`owing, this`last
      ensures Sound() && owing == Some(Do(c.act)) && last == c.act && reached <= clock
      ensures script == old(script)[1..] && clock >= old(clock)
      ensures Calm(old(script)) ==> Calm(script) && !Upsetting(c)
    {
      hide FirstCame, ByTime, FramesOk, TimersOk, HealthOk, UpsOk, Calm;
      c := Next();
      owing, last := Some(Do(c.act)), c.act;
    }

    /** It begins. */
    ghost method Enlist()
      requires Sound() && owing == Some(Begin) && reached <= clock
      modifies this`owing, this`open
      ensures Valid() && open == old(open) + 1
    {
      owing, open := None, open + 1;
    }

    /** It ends. */
    ghost method Dismiss()
      requires Valid() && open > 0
      modifies this`reached, this`open
      ensures Valid() && open == old(open) - 1 && reached == clock
    {
      reached, open := clock, open - 1;
    }

    /** It does what it chose. */
    ghost method Settle()
      requires Sound() && reached <= clock
      modifies this`owing
      ensures Valid()
    {
      owing := None;
    }

    lemma Facts()
      requires Valid()
      ensures serials == |dispatch.taken| && (ideal ==> ByTime(arrivals))
      ensures forall t :: 0 <= t < |timers| ==> (timers[t].active <==> t in log.firing)
      ensures forall i :: 0 <= i < |onTimer| ==> onTimer[i] < |timers|
    {
      ActiveIffFiring(timers, log);
    }

    /** A callback, or any other user code: whatever the script says, until it returns or raises. */
    method Callback() returns (st: Status)
      requires Sound() && owing == Some(Begin) && reached <= clock
      modifies this
      ensures Valid() && Ran(st) && (st != Cut ==> |script| < |old(script)| && reached == clock)
      ensures st == Done ==> last == Return
      decreases |script|, 0, 2
    {
      hide FirstCame, ByTime, FramesOk, TimersOk, HealthOk, UpsOk, FiredTimes, Calm, Grew, Sound;
      Enlist();
      st := Choices();
      if st != Cut { Dismiss(); }
    }

    /** What it chooses and does, one thing after the other. */
    method Choices() returns (st: Status)
      requires Valid()
      modifies this
      ensures Valid() && RanOn(st) && (st != Cut ==> |script| < |old(script)|)
      ensures st == Done ==> last == Return
      decreases |script|, 0, 1
    {
      hide FirstCame, ByTime, FramesOk, TimersOk, HealthOk, UpsOk, FiredTimes, Calm, Grew, Sound;
      GrewNone(Mark());
      while script != []
        invariant Valid() && Onward() && Untroubled(Done) && Kept()
        decreases |script|
      {
        ghost var mark1 := Mark();
        var act;
        st, act := ChooseAndDo();
        GrewOn(old(Mark()), mark1, Mark());
        if st != Done || act.Return? { return; }
      }
      st := Cut;
    }

    /** One of them. */
    method ChooseAndDo() returns (st: Status, act: Act)
      requires Valid() && script != []
      modifies this
      ensures Valid() && RanOn(st) && |script| < |old(script)|
      ensures act.Return? ==> st == Done && last == Return
      decreases |script|, 0, 0
    {
      hide FirstCame, ByTime, FramesOk, TimersOk, HealthOk, UpsOk, FiredTimes, Calm, Grew, Sound;
      var c := Draw();
      act := c.act;
      st := Perform(act);
    }

    /** Any program of the user's. */
    method Program() returns (st: Status)
      requires Valid()
      modifies this
      ensures Valid() && Ran(st)
    {
      hide FirstCame, ByTime, FramesOk, TimersOk, HealthOk, UpsOk, FiredTimes, Calm, Grew, Sound;
      owing := Some(Begin);
      st := Callback();
    }

    /** What a thing user code does comes to, exactly; `Raised` when it does not catch what came of it. */
    twostate predicate Effect(act: Act, st: Status)
      reads this
    {
      match act
      case Return => st == Done && last == old(last)
      case Raise => st == Raised
      case RunLoop(duration, catches) =>
        && (duration < 0.0 ==> st == if catches then Done else Raised) && (catches ==> st != Raised)
        && (st == Done && !catches ==> clock >= old(clock) + duration)
      case OnMessage(channel, want, fn) => st == Done && onMsg == old(onMsg) + [Handler(channel, want, fn)]
      case OnTimer(period) =>
        if period < 1.0 then st == Raised
        else
          && st == Done && timers == old(timers) + [Timer(clock + period, period, false)] && clock == old(clock)
          && onTimer == old(onTimer) + [|old(timers)|]
      case OnHealth(channel) =>
        st == Done && health == old(health) + [Health(channel, 0)] && onHealth == old(onHealth) + [|old(health)|]
      case Forget => st == Done && onMsg == [] && onHealth == [] && onTimer == [] && pending == []
    }

    /** One thing user code does. */
    method Perform(act: Act) returns (st: Status)
      requires Sound() && owing == Some(Do(act)) && reached <= clock
      modifies this
      ensures Valid() && Did(act, st) && Effect(act, st)
      decreases |script|, 7
    {
      hide FirstCame, ByTime, FramesOk, TimersOk, HealthOk, UpsOk, FiredTimes, Calm, Grew, Sound;
      Settle();
      GrewNone(Mark());
      match act {
        case Return => st := Done;
        case Raise =>
          NoteUpset();
          st := Raised;
        case RunLoop(duration, catches) => st := RunInside(duration, catches);
        case _ => st := Register(act);
      }
    }

    /** A registration, or that all are forgotten. */
    method Register(act: Act) returns (st: Status)
      requires Valid() && (act.OnMessage? || act.OnTimer? || act.OnHealth? || act.Forget?)
      modifies this
      ensures Valid() && Did(act, st) && Effect(act, st)
    {
      hide FirstCame, ByTime, FramesOk, TimersOk, HealthOk, UpsOk, FiredTimes, Calm, Grew, Sound;
      st := Done;
      match act {
        case OnMessage(channel, want, fn) => AddHandler(Handler(channel, want, fn));
        case OnTimer(period) => st := SetTimer(period);
        case OnHealth(channel) => AddHealth(channel);
        case Forget => ForgetAll();
      }
    }

    /** A run inside a callback. */
    method RunInside(duration: real, catches: bool) returns (st: Status)
      requires Valid()
      modifies this
      ensures Valid() && Did(RunLoop(duration, catches), st)
      ensures duration < 0.0 ==> st == if catches then Done else Raised
      ensures catches ==> st != Raised
      ensures st == Done && !catches ==> clock >= old(clock) + duration
      decreases |script|, 6, 0
    {
      hide FirstCame, ByTime, FramesOk, TimersOk, HealthOk, UpsOk, FiredTimes, Calm, Grew, Sound;
      GrewNone(Mark());
      ghost var deadline;
      st, deadline := Run(duration);
      ghost var mark1 := Mark();
      if duration < 0.0 {
        NoteUpset();
        GrewOn(old(Mark()), mark1, Mark());
      }
      if st == Raised && catches { st := Done; }
    }

    /** Refused unless the period is at least a millisecond. */
    method SetTimer(period: real) returns (st: Status)
      requires Valid()
      modifies this`timers, this`onTimer, this`log, this`upsets
      ensures Valid() && Did(OnTimer(period), st)
      ensures st == if period < 1.0 then Raised else Done
      ensures st == Done ==>
                && timers == old(timers) + [Timer(clock + period, period, false)]
                && onTimer == old(onTimer) + [|old(timers)|]
    {
      hide FirstCame, ByTime, FramesOk, TimersOk, HealthOk, UpsOk, FiredTimes, Calm, Grew, Sound;
      GrewNone(Mark());
      st := Done;
      if period < 1.0 {
        NoteUpset();
        st := Raised;
      } else {
        AddTimer(period);
      }
    }

    method ForgetAll()
      requires Valid()
      modifies this`onMsg, this`onHealth, this`onTimer, this`pending, this`dispatch, this`upsets
      ensures Valid() && Did(Forget, Done) && onMsg == [] && onHealth == [] && onTimer == [] && pending == []
    {
      hide FirstCame, ByTime, FramesOk, TimersOk, HealthOk, UpsOk, FiredTimes, Calm, Grew;
      GrewNone(Mark());
      onMsg, onHealth, onTimer := [], [], [];
      DropCut();
      GrewBeside(old(Mark()), Mark());
    }

    method NoteUpset()
      requires Sound()
      modifies this`upsets
      ensures Sound() && upsets == old(upsets) + 1 && Grew(old(Mark()), Mark())
    {
      hide TimersOk, HealthOk, UpsOk, Grew;
      MoreUpsets(pending, dispatch, upsets, upsets + 1);
      upsets := upsets + 1;
      GrewBeside(old(Mark()), Mark());
    }

    method AddHandler(h: Handler)
      requires Valid()
      modifies this`onMsg
      ensures Valid() && onMsg == old(onMsg) + [h] && Grew(old(Mark()), Mark())
    {
      hide FirstCame, ByTime, FramesOk, TimersOk, HealthOk, UpsOk, Grew;
      onMsg := onMsg + [h];
      GrewBeside(old(Mark()), Mark());
    }

    method AddTimer(period: real)
      requires Valid() && period >= 1.0
      modifies this`timers, this`onTimer, this`log
      ensures Valid() && log.firing == old(log).firing && onTimer == old(onTimer) + [|old(timers)|]
      ensures timers == old(timers) + [Timer(clock + period, period, false)]
      ensures Grew(old(Mark()), Mark())
    {
      hide FirstCame, ByTime, FramesOk, HealthOk, UpsOk, TimersOk, FiredTimes;
      TimerAdded(timers, log, clock, period);
      onTimer := onTimer + [|timers|];
      timers := timers + [Timer(clock + period, period, false)];
      log := log.(grid := log.grid + [Grid(clock, 1)]);
    }

    method AddHealth(channel: nat)
      requires Valid()
      modifies this`health, this`onHealth, this`told
      ensures Valid() && health == old(health) + [Health(channel, 0)] && onHealth == old(onHealth) + [|old(health)|]
      ensures Grew(old(Mark()), Mark())
    {
      hide FirstCame, ByTime, FramesOk, HealthOk, UpsOk, TimersOk;
      HealthAdded(health, told, sampled, channel);
      onHealth := onHealth + [|health|];
      health, told := health + [Health(channel, 0)], told + [[]];
    }

    // -- the loop

    /** The wait, as the loop sees it, the frame it brings told by `u`; `due` is the run's deadline. */
    method WaitFrame(budget: real, ghost due: real) returns (a: Arrival, fails: bool, ghost u: Up)
      requires AsksWhatIsLeft(clock, due, budget)
      modifies this`script, this`clock
      ensures |script| <= |old(script)| && clock >= old(clock) && (fails ==> a.NoFrame?)
      ensures Calm(old(script)) ==> Calm(script) && !fails
      ensures a.Arrives? ==> TakesFrame(u) && InTime(u) && u.deadline == due && u.at == old(clock)
      ensures !ideal && Brings(old(script), budget) ==>
                a.Arrives? && !fails && u == TakenBy(old(script), old(clock), old(clock), due, budget)
      ensures ideal && a.Arrives? ==>
                ComesNext(a.channel, a.frame) && arrivals[serials].at <= clock <= old(clock) + budget
                && (clock == old(clock) || clock == arrivals[serials].at)
      ensures ideal && a.NoFrame? && !fails && old(script) != [] ==>
                clock == old(clock) + budget && (serials < |arrivals| ==> arrivals[serials].at > clock)
      ensures ideal && old(script) == [] ==> clock == old(clock) && !fails && a.NoFrame?
      ensures ideal && old(script) != [] ==> fails == old(script)[0].fails
      ensures !ideal && Calls(old(script), budget) ==>
                var c := old(script)[CallAt(old(script)[0].channels, budget)];
                fails == c.fails && (!fails ==> a == c.arrival)
    {
      if ideal {
        a, fails, u := WaitIdeally(budget, due);
      } else {
        a, fails, u := WaitOnChannels(budget, due);
      }
    }

    /** It counts its budget from a reading of its own, and the call that brings a frame is in time of that. */
    method WaitOnChannels(budget: real, ghost due: real) returns (a: Arrival, fails: bool, ghost u: Up)
      requires AsksWhatIsLeft(clock, due, budget) && !ideal
      modifies this`script, this`clock
      ensures |script| <= |old(script)| && clock >= old(clock) && (fails ==> a.NoFrame?)
      ensures Calls(old(script), budget) ==>
                var c := old(script)[CallAt(old(script)[0].channels, budget)];
                fails == c.fails && (!fails ==> a == c.arrival)
      ensures Calm(old(script)) ==> Calm(script) && !fails
      ensures a.Arrives? ==>
                u.TookFrame? && InTime(u) && u.deadline == due && u.at == old(clock) <= u.start && u.look <= clock
      ensures Brings(old(script), budget) ==>
                a.Arrives? && !fails && u == TakenBy(old(script), old(clock), old(clock), due, budget)
    {
      ghost var now := clock;
      a, fails, u := NoFrame, false, FiredTimer(now, due);
      if script == [] { return; }
      var channels := script[0].channels;
      var read := Now();
      if channels == 0 { return; }
      var deadline := read + budget;
      ghost var start := read;
      if channels > 1 && budget > 0.0 {
        read := Now();
        if read >= deadline { return; }
      }
      if script != [] {
        var c := Next();
        fails := c.fails;
        if !fails { a := c.arrival; }
        u := TookFrame(now, due, budget, start, channels, read, if channels == 1 then Whole(budget) else 0);
      }
    }

    /** The first frame to come within the budget, as it comes; or all of the budget passes. */
    method WaitIdeally(budget: real, ghost due: real) returns (a: Arrival, fails: bool, ghost u: Up)
      requires AsksWhatIsLeft(clock, due, budget) && ideal
      modifies this`script, this`clock
      ensures |script| <= |old(script)| && clock >= old(clock) && (fails ==> a.NoFrame?)
      ensures Calm(old(script)) ==> Calm(script) && !fails
      ensures a.Arrives? ==>
                && u == TookArrival(old(clock), due, budget, clock) && InTime(u) && ComesNext(a.channel, a.frame)
                && arrivals[serials].at <= clock && (clock == old(clock) || clock == arrivals[serials].at)
      ensures a.NoFrame? && !fails && old(script) != [] ==>
                clock == old(clock) + budget && (serials < |arrivals| ==> arrivals[serials].at > clock)
      ensures old(script) == [] ==> clock == old(clock) && !fails && a.NoFrame?
      ensures old(script) != [] ==> fails == old(script)[0].fails
    {
      a, fails, u := NoFrame, false, FiredTimer(clock, due);
      if script == [] { return; }
      var c := Beside();
      fails := c.fails;
      if fails { return; }
      if serials < |arrivals| && arrivals[serials].at <= clock + budget {
        var next := arrivals[serials];
        a := Arrives(next.channel, next.frame);
        u := TookArrival(clock, due, budget, if next.at > clock then next.at else clock);
        if next.at > clock { clock := next.at; }
      } else {
        clock := clock + budget;
      }
    }

    /** When to wake: the deadline, the next timer not in its own callback, the next health poll. */
    method WakeAt(now: real, deadline: real, nextHealth: real) returns (budget: real, ghost dues: seq<real>)
      requires Valid() && now < deadline
      ensures InTime(Waited(now, deadline, budget, dues))
      ensures forall i :: 0 <= i < |onTimer| && !timers[onTimer[i]].active ==> timers[onTimer[i]].due in dues
      ensures onHealth != [] ==> budget == 0.0 || now + budget <= nextHealth
      ensures onTimer == [] && onHealth == [] ==> budget == Left(now, deadline)
      ensures Reason(now, deadline, nextHealth, budget)
    {
      hide FirstCame, ByTime, FramesOk, TimersOk, HealthOk, UpsOk;
      var wake := deadline;
      dues := [];
      var i := 0;
      while i < |onTimer|
        invariant 0 <= i <= |onTimer| && wake <= deadline && (i == 0 ==> wake == deadline)
        invariant forall k :: 0 <= k < i && !timers[onTimer[k]].active ==> timers[onTimer[k]].due in dues
        invariant forall k :: 0 <= k < |dues| ==> wake <= dues[k]
        invariant wake == deadline ||
                  exists k :: 0 <= k < i && !timers[onTimer[k]].active && timers[onTimer[k]].due == wake
      {
        var t := timers[onTimer[i]];
        if !t.active {
          if t.due < wake { wake := t.due; }
          dues := dues + [t.due];
        }
        i := i + 1;
      }
      if onHealth != [] && nextHealth < wake { wake := nextHealth; }
      budget := if wake - now > 0.0 then wake - now else 0.0;
      if budget > LONGEST_WAIT_MS { budget := LONGEST_WAIT_MS; }
    }

    /** A wait ends when its run does, or a timer is due, or a poll, or after a second: never sooner. */
    ghost predicate Reason(now: real, deadline: real, nextHealth: real, budget: real)
      requires forall i :: 0 <= i < |onTimer| ==> onTimer[i] < |timers|
      reads this
    {
      || budget == LONGEST_WAIT_MS || budget == deadline - now
      || (onHealth != [] && budget == NotLess(nextHealth - now))
      || exists k :: 0 <= k < |onTimer| && !timers[onTimer[k]].active && budget == NotLess(timers[onTimer[k]].due - now)
    }

    /** A run's end, with ideal hooks: a callback ended then, at the deadline or past it; or it is the deadline, and
        every frame that came before it was taken up. */
    ghost predicate ReadUpTo(deadline: real)
      reads this
    {
      clock >= deadline && (reached == clock || (clock == deadline && AllRead(deadline)))
    }

    /** When a run that begins now reads the clock first. */
    function FirstReading(): real
      reads this
    {
      if ideal || script == [] then clock else clock + script[0].elapsed
    }

    /** The loop, for `duration` from its first reading of the clock. Cut off between callbacks, it had time left. */
    method Run(duration: real) returns (st: Status, ghost deadline: real)
      requires Valid()
      modifies this
      ensures Valid() && deadline == old(FirstReading()) + duration
      ensures if duration < 0.0 then st == Raised && unchanged(this) else RanOn(st)
      ensures st == Done ==> clock >= deadline
      ensures st == Cut && open == old(open) && |old(script)| > 2 ==> clock < deadline
      ensures ideal && st == Done && duration > 0.0 ==> ReadUpTo(deadline)
      ensures ideal && st == Done && duration > 0.0 && reached != clock && upsets == old(upsets) ==>
                && TimersAt(old(onTimer), deadline) && FiredSince(old(onTimer), old(timers), old(log), deadline)
                && (old(onHealth) != [] ==> Polled(old(onHealth), sampled, |old(sampled)|, deadline - HEALTH_POLL_MS))
      ensures !ideal && old(Idle()) && RunBrings(old(script), old(clock), duration) ==>
                TurnTakes(old(script)[2..], old(clock), old(clock) + duration) in ups
      decreases |script|, 3, 5
    {
      hide FirstCame, ByTime, FramesOk, TimersOk, HealthOk, UpsOk, TurnBrings, TurnTakes, ReadUpTo, Sound;
      hide FiredTimes, Calm, Grew, Polled;
      GrewNone(Mark());
      deadline := FirstReading() + duration;
      if RunBrings(script, clock, duration) { TurnBegins(script[2..], clock, clock + duration); }
      if duration < 0.0 { return Raised, deadline; }
      var start := Now();
      var nextHealth := Now();
      st := Turns(start + duration, nextHealth);
      GrewFired(old(Mark()), Mark());
    }

    /** Turn after turn, until the deadline was seen to have passed. */
    method Turns(deadline: real, healthDue: real) returns (st: Status)
      requires Valid()
      modifies this
      ensures Valid() && RanOn(st)
      ensures st == Done ==> clock >= deadline
      ensures st == Cut && open == old(open) && old(script) != [] ==> clock < deadline
      ensures ideal && st == Done && old(clock) < deadline ==> ReadUpTo(deadline)
      ensures ideal && st == Done && old(clock) < deadline && reached != clock && upsets == old(upsets) ==>
                TimersAt(old(onTimer), deadline) &&
                (old(onHealth) != [] && healthDue <= old(clock) ==>
                   Polled(old(onHealth), sampled, |old(sampled)|, deadline - HEALTH_POLL_MS))
      ensures !ideal && old(Idle()) && TurnBrings(old(script), old(clock), deadline) ==>
                TurnTakes(old(script), old(clock), deadline) in ups
      decreases |script|, 3, 4
    {
      hide FirstCame, ByTime, FramesOk, TimersOk, HealthOk, UpsOk, TurnBrings, TurnTakes, ReadUpTo, Sound;
      hide FiredTimes, Calm, Grew, Polled, PollsGoOn, TimersPast, AtOnce;
      GrewNone(Mark());
      ghost var brings := !ideal && Idle() && TurnBrings(script, clock, deadline);
      ghost var u := FiredTimer(clock, clock);
      if brings {
        TurnBegins(script, clock, deadline);
        u := TurnTakes(script, clock, deadline);
      }
      ghost var first := true;
      var nextHealth := healthDue;
      while script != []
        invariant Valid() && Onward() && Untroubled(Done) && Kept()
        invariant first ==> unchanged(this)
        invariant brings && !first ==> u in ups
        invariant !first || (ideal && old(clock) < deadline) ==> clock < deadline
        invariant first ==> nextHealth == healthDue
        invariant upsets == old(upsets) && old(onHealth) != [] && !first ==>
                    PollsGoOn(old(onHealth), sampled, |old(sampled)|, old(clock), healthDue, nextHealth)
        decreases |script|
      {
        var over;
        ghost var mark1, due1, clock1 := Mark(), nextHealth, clock;
        st, over, nextHealth := Turn(deadline, nextHealth);
        AfterTurn(old(Mark()), mark1, Mark(), u, old(clock), clock1, healthDue, due1, nextHealth, first, deadline);
        first := false;
        if st != Done || over { return; }
      }
      st := Cut;
    }

    /** The timers due, and a health poll if one is. */
    method FireAndPoll(deadline: real, healthDue: real) returns (st: Status, nextHealth: real)
      requires Valid() && script != []
      modifies this
      ensures nextHealth == healthDue || nextHealth >= healthDue + HEALTH_POLL_MS
      ensures Valid() && Ran(st) && |script| < |old(script)| && (st != Cut ==> Steady())
      ensures st == Done && clock < deadline ==>
                TimersPast(old(onTimer), old(FirstReading())) && PollsKept(healthDue, nextHealth)
      ensures old(Idle()) ==>
                st == Done && Idle() && script == old(script)[1..] && clock == old(FirstReading())
      decreases |script|, 3, 1
    {
      hide FirstCame, ByTime, FramesOk, TimersOk, HealthOk, UpsOk, FiredTimes, Calm, Grew, Polled, Sound;
      nextHealth := healthDue;
      var now := Now();
      var late;
      st, late := FireDue(now, deadline);
      if st != Done { return; }
      ghost var mark1, onHealth1, sampled1 := Mark(), onHealth, sampled;
      st, nextHealth := HealthTurn(deadline, healthDue);
      GrewOn(old(Mark()), mark1, Mark());
      GrewSeqs(old(Mark()), mark1);
      GrewSeqs(mark1, Mark());
      GrewTimers(mark1, Mark());
      if Polled(onHealth1, sampled, |sampled1|, nextHealth - HEALTH_POLL_MS) && old(onHealth) <= onHealth1 {
        PolledStill(old(onHealth), onHealth1, sampled, sampled, |old(sampled)|, |sampled1|,
                    nextHealth - HEALTH_POLL_MS, nextHealth - HEALTH_POLL_MS);
      }
    }

    /** What a turn does before it waits: timers, health, and what is pending. */
    method Prepare(deadline: real, healthDue: real) returns (st: Status, over: bool, nextHealth: real, now: real)
      requires Valid() && script != []
      modifies this
      ensures nextHealth == healthDue || nextHealth >= healthDue + HEALTH_POLL_MS
      ensures Valid() && Ran(st) && |script| < |old(script)| && (st != Cut ==> Steady())
      ensures st == Done ==> (over <==> clock >= deadline)
      ensures st == Done && !over ==> pending == [] && now == clock
      ensures st == Done && !over ==> TimersPast(old(onTimer), old(FirstReading())) && PollsKept(healthDue, nextHealth)
      ensures old(Idle()) && AtOnce(old(script), 3) && old(clock) < deadline ==>
                st == Done && !over && Idle() && script == old(script)[3..] && clock == old(clock)
      decreases |script|, 3, 2
    {
      hide FirstCame, ByTime, FramesOk, TimersOk, HealthOk, UpsOk, FiredTimes, Calm, Grew, Polled, Sound;
      over := false;
      st, nextHealth := FireAndPoll(deadline, healthDue);
      now := clock;
      if st != Done { return; }
      ghost var mark1, sampled1 := Mark(), sampled;
      st, over, now := DispatchInTime(deadline);
      GrewOn(old(Mark()), mark1, Mark());
      GrewSeqs(old(Mark()), mark1);
      GrewSeqs(mark1, Mark());
      GrewTimers(mark1, Mark());
      PollsLast(old(onHealth), sampled1, sampled, |old(sampled)|, nextHealth - HEALTH_POLL_MS);
    }

    /** What is pending, if there is time, and whether there is after it. */
    method DispatchInTime(deadline: real) returns (st: Status, over: bool, now: real)
      requires Valid()
      modifies this
      ensures Valid() && Ran(st) && (st != Cut ==> Steady())
      ensures st == Done ==> (over <==> clock >= deadline)
      ensures st == Done && !over ==> pending == [] && now == clock
      ensures old(FirstReading()) >= deadline ==> st == Done && over && pending == old(pending)
      ensures old(Idle()) && AtOnce(old(script), 2) && old(clock) < deadline ==>
                st == Done && !over && Idle() && script == old(script)[2..] && clock == old(clock)
      decreases |script|, 3, 1
    {
      hide FirstCame, ByTime, FramesOk, TimersOk, HealthOk, UpsOk, FiredTimes, Calm, Grew, Sound;
      GrewNone(Mark());
      st := Done;
      now := Now();
      over := now >= deadline;
      if over { return; }
      st := DispatchPending();
      if st != Done { return; }
      now := Now();
      over := now >= deadline;
    }

    /** Once round: timers, health, what is pending, one wait. `over` once the deadline was seen to
        have passed. */
    method Turn(deadline: real, healthDue: real) returns (st: Status, over: bool, nextHealth: real)
      requires Valid() && script != []
      modifies this
      ensures nextHealth == healthDue || nextHealth >= healthDue + HEALTH_POLL_MS
      ensures Valid() && Ran(st) && |script| < |old(script)|
      ensures st == Done ==> (over <==> clock >= deadline)
      ensures st == Done && !over ==> TimersPast(old(onTimer), old(FirstReading())) && PollsKept(healthDue, nextHealth)
      ensures ideal && st == Done && over && old(clock) < deadline ==> ReadUpTo(deadline)
      ensures ideal && st == Done && over && old(clock) < deadline && reached != clock && upsets == old(upsets) ==>
                && TimersAt(old(onTimer), deadline) && PollsKept(healthDue, nextHealth)
                && (old(onHealth) != [] ==> nextHealth >= deadline)
      ensures !ideal && old(Idle()) && TurnBrings(old(script), old(clock), deadline) ==>
                TurnTakes(old(script), old(clock), deadline) in ups
      decreases |script|, 3, 3
    {
      hide FirstCame, ByTime, FramesOk, TimersOk, HealthOk, UpsOk, Brings, TakenBy, Left, AllRead, Sound;
      hide FiredTimes, Calm, Grew, Polled;
      var now;
      st, over, nextHealth, now := Prepare(deadline, healthDue);
      if st != Done || over { return; }
      var a;
      ghost var mark1, sampled1 := Mark(), sampled;
      st, a := FrameTurn(now, deadline, nextHealth);
      GrewOn(old(Mark()), mark1, Mark());
      GrewSeqs(old(Mark()), mark1);
      GrewSeqs(mark1, Mark());
      GrewTimers(mark1, Mark());
      PollsLast(old(onHealth), sampled1, sampled, |old(sampled)|, nextHealth - HEALTH_POLL_MS);
      if st != Done { return; }
      now := Now();
      over := now >= deadline;
    }

    /** A poll where one is due and time is left, and the next a hundred milliseconds on. */
    method HealthTurn(deadline: real, due: real) returns (st: Status, next: real)
      requires Valid()
      modifies this
      ensures Valid() && Ran(st) && (st != Cut ==> Steady())
      ensures next == due || next >= due + HEALTH_POLL_MS
      ensures old(onHealth) == [] ==> st == Done && unchanged(this) && next == due
      ensures st == Done && old(onHealth) != [] && next == due ==> old(clock) < due || clock >= deadline
      ensures st == Done && next != due && clock < deadline ==>
                Polled(old(onHealth), sampled, |old(sampled)|, next - HEALTH_POLL_MS)
      decreases |script|, 3, 0
    {
      hide FirstCame, ByTime, FramesOk, TimersOk, HealthOk, UpsOk, FiredTimes, Calm, Grew, Polled, Sound;
      st, next := Done, due;
      GrewNone(Mark());
      if onHealth == [] { return; }
      var now := Now();
      if now < due { return; }
      now := Now();
      if now >= deadline { return; }
      now := Now();
      next := now + HEALTH_POLL_MS;
      var over;
      st, over := PollHealth(deadline);
    }

    ghost method NoteUp(u: Up)
      requires Valid() && InTime(u)
      modifies this`ups
      ensures Valid() && ups == old(ups) + [u] && Grew(old(Mark()), Mark())
    {
      hide FramesOk, TimersOk, HealthOk;
      ups := ups + [u];
      hide Grew;
      GrewBeside(old(Mark()), Mark());
    }

    /** A frame a wait brought is taken up and dispatched, to the handlers registered by then. */
    method TakeUpFrame(channel: nat, frame: Frame, ghost u: Up) returns (st: Status)
      requires Valid() && pending == [] && TakesFrame(u) && InTime(u) && (ideal ==> ComesNext(channel, frame))
      modifies this
      ensures Valid() && Ran(st) && (st != Cut ==> Steady())
      ensures u in ups && serials > old(serials)
      ensures old(dispatch).taken + [TakenUp(channel, frame, old(onMsg))] <= dispatch.taken
      decreases |script|, 2
    {
      hide FirstCame, ByTime, FramesOk, TimersOk, HealthOk, UpsOk, InTime, FiredTimes, Calm, Grew, Sound;
      Facts();
      NoteUp(u);
      ghost var mark1 := Mark();
      TakeFrame(channel, frame);
      ghost var mark2 := Mark();
      GrewOn(old(Mark()), mark1, mark2);
      st := DispatchPending();
      GrewOn(old(Mark()), mark2, Mark());
      GrewSeqs(mark2, Mark());
      GrewSeqs(mark1, mark2);
      StillThere(mark1.ups, ups, u);
      Facts();
    }

    /** One wait, until there is a reason to wake; what it leaves for the run to end with. */
    method WaitTurn(now: real, deadline: real, nextHealth: real) returns (a: Arrival, fails: bool, ghost u: Up)
      requires Valid() && now == clock < deadline
      modifies this`script, this`clock, this`ups
      ensures Valid() && |script| <= |old(script)| && clock >= old(clock) && Grew(old(Mark()), Mark())
      ensures (Calm(old(script)) ==> Calm(script) && !fails) && (fails ==> a.NoFrame?)
      ensures a.Arrives? ==> TakesFrame(u) && InTime(u)
      ensures ideal && a.Arrives? ==> ComesNext(a.channel, a.frame) && clock <= deadline
      ensures ideal && a.Arrives? && clock == deadline ==> serials < |arrivals| && arrivals[serials].at >= deadline
      ensures ideal && a.NoFrame? && !fails && clock >= deadline ==> clock == deadline && AllRead(deadline)
      ensures ideal && !fails && clock >= deadline ==>
                TimersAt(onTimer, deadline) && (onHealth != [] ==> nextHealth >= deadline)
      ensures !ideal && Idle() && Brings(old(script), Left(now, deadline)) ==>
                a.Arrives? && !fails && u == TakenBy(old(script), old(clock), now, deadline, Left(now, deadline))
    {
      hide FirstCame, ByTime, FramesOk, TimersOk, HealthOk, UpsOk, Brings, TakenBy, FiredTimes, Calm, Grew, Sound;
      Facts();
      var budget, dues := WakeAt(now, deadline, nextHealth);
      NoteUp(Waited(now, deadline, budget, dues));
      a, fails, u := WaitFrame(budget, deadline);
      if ideal && a.NoFrame? && serials < |arrivals| && arrivals[serials].at >= deadline {
        NoneBefore(arrivals, serials, deadline);
      }
    }

    /** One wait, and the frame it read. */
    method FrameTurn(now: real, deadline: real, nextHealth: real) returns (st: Status, a: Arrival)
      requires Valid() && pending == [] && now == clock < deadline
      modifies this
      ensures Valid() && Ran(st)
      ensures ideal && st == Done && clock >= deadline ==> ReadUpTo(deadline)
      ensures ideal && st == Done && clock >= deadline && reached != clock ==>
                TimersAt(old(onTimer), deadline) && (old(onHealth) != [] ==> nextHealth >= deadline)
      ensures !ideal && old(Idle()) && Brings(old(script), Left(now, deadline)) ==>
                TakenBy(old(script), old(clock), now, deadline, Left(now, deadline)) in ups
      ensures a.Arrives? && st != Raised ==>
                old(dispatch).taken + [TakenUp(a.channel, a.frame, old(onMsg))] <= dispatch.taken
      decreases |script|, 3, 0
    {
      hide FirstCame, ByTime, FramesOk, TimersOk, HealthOk, UpsOk, Brings, TakenBy, FiredTimes, Calm, Grew, Sound;
      hide InTime;
      Facts();
      var fails; ghost var u;
      a, fails, u := WaitTurn(now, deadline, nextHealth);
      ghost var mark1, next := Mark(), serials;
      st := Done;
      if fails {
        NoteUpset();
        GrewOn(old(Mark()), mark1, Mark());
        st := Raised;
      } else if a.Arrives? {
        if ideal && clock == deadline { NoneBefore(arrivals, next, deadline); }
        st := TakeUpFrame(a.channel, a.frame, u);
        GrewOn(old(Mark()), mark1, Mark());
        GrewTimers(mark1, Mark());
      }
    }
  }

  /** Any program at all, from a new loop to wherever it stands when the script ends. */
  method Play(choices: seq<Choice>, ideal: bool, coming: seq<Coming>) returns (st: Status, loop: Loop)
    requires ideal ==> ByTime(coming)
    ensures fresh(loop) && loop.Valid() && |loop.pending| <= 1
    ensures forall i, j :: 0 <= i < j < |loop.dispatch.calls| ==> Before(loop.dispatch.calls[i], loop.dispatch.calls[j])
    ensures st != Cut ==> loop.pending == [] && loop.log.firing == []
    ensures Calm(choices) ==> loop.upsets == 0 && st != Raised
    ensures st != Cut && loop.upsets == 0 ==>
              forall c :: c in loop.dispatch.calls <==>
                c.serial < |loop.dispatch.taken| && c.index < |Due(loop.dispatch.taken[c.serial])|
  {
    loop := new Loop(choices, ideal, coming);
    st := loop.Program();
    forall i, j | 0 <= i < j < |loop.dispatch.calls| ensures Before(loop.dispatch.calls[i], loop.dispatch.calls[j]) {
      CallsOnceAndInOrder(loop.pending, loop.dispatch, loop.upsets, i, j);
    }
    if st != Cut && loop.upsets == 0 {
      forall c ensures c in loop.dispatch.calls <==>
          c.serial < |loop.dispatch.taken| && c.index < |Due(loop.dispatch.taken[c.serial])| {
        EveryHandlerCalled(loop.dispatch, c);
      }
    }
  }

  /** Any program with ideal hooks, and then a run: if it ends without exceptions, and no callback ran to its
      deadline, every frame that came before the deadline was taken up, in the order they came, and every handler
      registered then and matching it was called. */
  method HearAll(choices: seq<Choice>, duration: real, coming: seq<Coming>)
    returns (loop: Loop, st: Status, ghost deadline: real)
    requires ByTime(coming) && duration > 0.0
    ensures fresh(loop) && loop.Valid() && loop.ideal && loop.arrivals == coming
    ensures Calm(choices) ==> loop.upsets == 0 && st != Raised
    ensures st == Done && loop.upsets == 0 && loop.reached < deadline ==>
              loop.clock == deadline &&
              forall i, k: nat :: 0 <= i < |coming| && coming[i].at < deadline ==>
                && i < |loop.dispatch.taken| && loop.dispatch.taken[i].channel == coming[i].channel
                && loop.dispatch.taken[i].frame == coming[i].frame
                && (k < |Due(loop.dispatch.taken[i])| ==> Call(i, k) in loop.dispatch.calls)
  {
    loop := new Loop(choices, true, coming);
    st := loop.Program();
    deadline := loop.clock + duration;
    if st != Done { return; }
    st, deadline := loop.Run(duration);
    if st == Done && loop.upsets == 0 && loop.reached < deadline {
      forall i, k: nat | 0 <= i < |coming| && coming[i].at < deadline
        ensures i < |loop.dispatch.taken|
        ensures k < |Due(loop.dispatch.taken[i])| ==> Call(i, k) in loop.dispatch.calls
      {
        EveryHandlerCalled(loop.dispatch, Call(i, k));
      }
    }
  }

  /** For any channels, any run of a second at most and any moment its wait may begin at that overruns the
      run's deadline, a run that takes a frame up by a call made at the deadline or left waiting past it. */
  method LateFrame(channels: nat, duration: real, start: Span, channel: nat, frame: Frame)
    returns (loop: Loop, ghost u: Up)
    requires channels > 0 && 0.0 < duration <= LONGEST_WAIT_MS && Overruns(channels, duration, duration, start)
    ensures fresh(loop) && loop.Valid() && u in loop.ups
    ensures u.TookFrame? && u.channels == channels && u.start == start && u.deadline == u.budget == duration
    ensures CanTakeLate(duration, u.look, u.asked)
  {
    hide FirstCame, ByTime, FramesOk, TimersOk, HealthOk, UpsOk;
    var quiet := Choice(0.0, Return, channels, NoFrame, 0, false);
    var brings := quiet.(arrival := Arrives(channel, frame));
    var wait := [quiet.(elapsed := start)] + (
      if channels == 1 then [brings]
      else [quiet.(elapsed := if start >= duration then 0.0 else duration - start), brings]);
    var choices := [quiet, quiet, quiet, quiet, quiet] + wait;
    loop := new Loop(choices, false, []);
    assert choices[2..][3..] == wait;
    assert RunBrings(choices, 0.0, duration);
    u := TurnTakes(choices[2..], 0.0, duration);
    var st; ghost var deadline;
    st, deadline := loop.Run(duration);
  }
}
