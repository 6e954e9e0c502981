/** What the event loop did, as plain values: the rules its history must keep, and what they mean. */
module EventHistory {
  import opened Deadlines
  import opened TimerGrid

  // ---- frames and their handlers -------------------------------------------------------------

  datatype Frame = Frame(id: nat, ext: bool)

  /** A filter: every frame, or one identifier of one kind or either. */
  datatype Want = Every | Only(id: nat) | OnlyKind(id: nat, ext: bool)

  datatype Handler = Handler(channel: nat, want: Want, fn: nat)

  predicate Matches(want: Want, f: Frame) {
    match want
    case Every => true
    case Only(id) => id == f.id
    case OnlyKind(id, ext) => id == f.id && ext == f.ext
  }

  predicate Hears(h: Handler, channel: nat, f: Frame) {
    h.channel == channel && Matches(h.want, f)
  }

  /** Who hears what: a handler only its own channel; without a filter every frame of it, with an identifier that
      one in either kind, with a kind too that one frame. */
  lemma WhoHears(h: Handler, channel: nat, f: Frame)
    ensures channel != h.channel ==> !Hears(h, channel, f)
    ensures h.want.Every? ==> Hears(h, h.channel, f)
    ensures h.want.Only? ==> (Hears(h, h.channel, f) <==> f in {Frame(h.want.id, false), Frame(h.want.id, true)})
    ensures h.want.OnlyKind? ==> (Hears(h, h.channel, f) <==> f == Frame(h.want.id, h.want.ext))
  {}

  /** The handlers a frame reaches, in the order they were registered. */
  function Matching(handlers: seq<Handler>, channel: nat, f: Frame): seq<Handler> {
    if handlers == [] then []
    else (if Hears(handlers[0], channel, f) then [handlers[0]] else []) + Matching(handlers[1..], channel, f)
  }

  lemma {:induction false} MatchingExactly(handlers: seq<Handler>, channel: nat, f: Frame, h: Handler)
    ensures multiset(Matching(handlers, channel, f))[h] == if Hears(h, channel, f) then multiset(handlers)[h] else 0
  {
    if handlers != [] {
      MatchingExactly(handlers[1..], channel, f, h);
      assert handlers == [handlers[0]] + handlers[1..];
    }
  }

  /** A frame taken up with what was registered then, and the entry working through its handlers. */
  datatype TakenUp = TakenUp(channel: nat, frame: Frame, registered: seq<Handler>)
  datatype Entry = Entry(serial: nat, frame: Frame, handlers: seq<Handler>, next: nat)

  /** The handlers a frame taken up is for: those registered then that it matches. */
  function Due(t: TakenUp): seq<Handler> { Matching(t.registered, t.channel, t.frame) }

  /** Handler `index` of frame `serial` was called. */
  datatype Call = Call(serial: nat, index: nat)

  /** `counts[s]` handlers of frame `s` were called; the dispatch of those in `cut` ended early. */
  datatype Dispatch = Dispatch(taken: seq<TakenUp>, counts: seq<nat>, cut: set<nat>, calls: seq<Call>)

  function CallsOf(serial: nat, n: nat): seq<Call> {
    seq(n, i requires 0 <= i => Call(serial, i))
  }

  /** Frame by frame, handler by handler. */
  function InOrder(counts: seq<nat>): seq<Call> {
    if counts == [] then []
    else InOrder(counts[..|counts| - 1]) + CallsOf(|counts| - 1, counts[|counts| - 1])
  }

  predicate Current(e: Entry, d: Dispatch) {
    && |d.counts| == |d.taken| > 0 && e.serial == |d.taken| - 1 && e.serial !in d.cut
    && e.next == d.counts[e.serial] <= |e.handlers| && e.handlers == Due(d.taken[e.serial])
    && e.frame == d.taken[e.serial].frame
  }

  /** All of a frame's handlers were called, unless its dispatch was cut. */
  predicate Settled(d: Dispatch, s: nat)
    requires s < |d.counts| == |d.taken|
  {
    d.counts[s] <= |Due(d.taken[s])| && (d.counts[s] == |Due(d.taken[s])| || s in d.cut)
  }

  /** At most one frame is being worked on, it is the newest, and every older one is settled. */
  ghost predicate FramesOk(pending: seq<Entry>, d: Dispatch, upsets: nat) {
    && |d.counts| == |d.taken| && d.calls == InOrder(d.counts)
    && |pending| <= 1 && (pending != [] ==> Current(pending[0], d))
    && (forall s: nat :: s < |d.counts| - |pending| ==> Settled(d, s))
    && (forall s :: s in d.cut ==> s < |d.counts|)
    && (d.cut != {} ==> upsets > 0)
  }

  function TakeUp(d: Dispatch, t: TakenUp): Dispatch {
    d.(taken := d.taken + [t], counts := d.counts + [0])
  }

  lemma FrameTakenUp(d: Dispatch, t: TakenUp, upsets: nat)
    requires FramesOk([], d, upsets)
    ensures FramesOk([Entry(|d.taken|, t.frame, Due(t), 0)], TakeUp(d, t), upsets)
  {
    var d' := TakeUp(d, t);
    assert d'.counts[..|d.counts|] == d.counts && CallsOf(|d.counts|, 0) == [];
    forall s: nat | s < |d.counts| ensures Settled(d', s) { assert Settled(d, s); }
  }

  function Called(d: Dispatch, s: nat): Dispatch
    requires s < |d.counts|
  {
    d.(counts := d.counts[s := d.counts[s] + 1], calls := d.calls + [Call(s, d.counts[s])])
  }

  lemma HandlerCalled(e: Entry, d: Dispatch, upsets: nat)
    requires FramesOk([e], d, upsets) && e.next < |e.handlers|
    ensures FramesOk([e.(next := e.next + 1)], Called(d, e.serial), upsets)
  {
    var d', n := Called(d, e.serial), |d.counts| - 1;
    assert [e][0] == e && [e.(next := e.next + 1)][0] == e.(next := e.next + 1);
    assert d'.counts[..n] == d.counts[..n];
    assert CallsOf(n, d.counts[n] + 1) == CallsOf(n, d.counts[n]) + [Call(n, d.counts[n])];
    forall s: nat | s < n ensures Settled(d', s) { assert Settled(d, s); }
  }

  lemma FrameDone(e: Entry, d: Dispatch, upsets: nat)
    requires FramesOk([e], d, upsets) && e.next >= |e.handlers|
    ensures FramesOk([], d, upsets)
  {
    assert [e][0] == e;
    forall s: nat | s < |d.counts| ensures Settled(d, s) {}
  }

  /** A handler raised, or everything was forgotten: the frame's other handlers are not called. */
  lemma FrameCut(e: Entry, d: Dispatch, upsets: nat)
    requires FramesOk([e], d, upsets)
    ensures FramesOk([], d.(cut := d.cut + {e.serial}), upsets + 1)
  {
    var d' := d.(cut := d.cut + {e.serial});
    assert [e][0] == e;
    forall s: nat | s < |d.counts| ensures Settled(d', s) {
      if s < |d.counts| - 1 { assert Settled(d, s); }
    }
  }

  lemma OnePending(pending: seq<Entry>, d: Dispatch, upsets: nat)
    requires FramesOk(pending, d, upsets) && pending != []
    ensures pending == [pending[0]] && pending[0].serial < |d.counts|
  {}

  lemma MoreUpsets(pending: seq<Entry>, d: Dispatch, upsets: nat, more: nat)
    requires FramesOk(pending, d, upsets) && more >= upsets
    ensures FramesOk(pending, d, more)
  {}

  // ---- what the order of calls means ---------------------------------------------------------

  predicate Before(a: Call, b: Call) {
    a.serial < b.serial || (a.serial == b.serial && a.index < b.index)
  }

  lemma {:induction false} InOrderExactly(counts: seq<nat>, c: Call)
    ensures c in InOrder(counts) <==> c.serial < |counts| && c.index < counts[c.serial]
  {
    if counts != [] {
      var n := |counts| - 1;
      InOrderExactly(counts[..n], c);
      if c.serial == n && c.index < counts[n] {
        assert CallsOf(n, counts[n])[c.index] == c;
      }
    }
  }

  /** Calls happen frame by frame, and within a frame handler by handler: none is repeated, and no
      handler sees a later frame before an earlier one. */
  lemma {:induction false} InOrderIncreases(counts: seq<nat>, i: nat, j: nat)
    requires i < j < |InOrder(counts)|
    ensures Before(InOrder(counts)[i], InOrder(counts)[j])
  {
    var n := |counts| - 1;
    var init := InOrder(counts[..n]);
    if j < |init| {
      InOrderIncreases(counts[..n], i, j);
    } else if i < |init| {
      InOrderExactly(counts[..n], init[i]);
    }
  }

  /** No call of the history is made twice, and none out of order. */
  lemma CallsOnceAndInOrder(pending: seq<Entry>, d: Dispatch, upsets: nat, i: nat, j: nat)
    requires FramesOk(pending, d, upsets) && i < j < |d.calls|
    ensures Before(d.calls[i], d.calls[j]) && d.calls[i] != d.calls[j]
  {
    InOrderIncreases(d.counts, i, j);
  }

  /** With nothing raised and nothing pending, exactly the matching handlers were called. */
  lemma EveryHandlerCalled(d: Dispatch, c: Call)
    requires FramesOk([], d, 0)
    ensures c in d.calls <==> c.serial < |d.taken| && c.index < |Due(d.taken[c.serial])|
  {
    InOrderExactly(d.counts, c);
    if c.serial < |d.counts| { assert Settled(d, c.serial); }
  }

  // ---- timers --------------------------------------------------------------------------------

  datatype Timer = Timer(due: real, period: real, active: bool)

  datatype Grid = Grid(base: real, point: int)

  /** Timer `timer` was fired for grid point `point`, at clock reading `at`, inside the callbacks of
      the timers in `inside`. */
  datatype Fire = Fire(timer: nat, point: int, at: real, inside: seq<nat>)

  datatype TimerLog = TimerLog(grid: seq<Grid>, fires: seq<Fire>, firing: seq<nat>)

  ghost predicate OnGrid(timers: seq<Timer>, log: TimerLog) {
    && |timers| == |log.grid|
    && forall t :: 0 <= t < |timers| ==>
         && timers[t].period >= 1.0 && log.grid[t].point >= 1
         && timers[t].due == Point(log.grid[t].base, timers[t].period, log.grid[t].point)
  }

  ghost predicate FiringOk(timers: seq<Timer>, firing: seq<nat>) {
    && (forall i, j :: 0 <= i < j < |firing| ==> firing[i] != firing[j])
    && (forall t: nat :: t in firing ==> t < |timers|)
    && (forall t: nat :: t < |timers| ==> (timers[t].active <==> t in firing))
  }

  /** Every fire was due, was not inside the timer's own callback, and is behind where the timer is. */
  ghost predicate FiresOk(timers: seq<Timer>, log: TimerLog) {
    forall i :: 0 <= i < |log.fires| ==>
      var f := log.fires[i];
      && f.timer < |timers| == |log.grid| && f.timer !in f.inside && f.point < log.grid[f.timer].point
      && Point(log.grid[f.timer].base, timers[f.timer].period, f.point) <= f.at
  }

  /** A timer's fires move along its grid: no point is fired for twice. */
  ghost predicate FiresMove(fires: seq<Fire>) {
    forall i, j :: 0 <= i < j < |fires| && fires[i].timer == fires[j].timer ==> fires[i].point < fires[j].point
  }

  ghost predicate TimersOk(timers: seq<Timer>, log: TimerLog) {
    OnGrid(timers, log) && FiringOk(timers, log.firing) && FiresOk(timers, log) && FiresMove(log.fires)
  }

  /** How often a timer was fired. */
  function FiredTimes(fires: seq<Fire>, t: nat): nat {
    if fires == [] then 0
    else FiredTimes(fires[..|fires| - 1], t) + if fires[|fires| - 1].timer == t then 1 else 0
  }

  lemma OneMoreFire(fires: seq<Fire>, f: Fire)
    ensures forall t :: FiredTimes(fires + [f], t) == FiredTimes(fires, t) + if f.timer == t then 1 else 0
  {
    assert (fires + [f])[..|fires|] == fires;
  }

  /** No timer has moved but by firing, or inside its own callback. */
  ghost predicate MovedByFiring(timers: seq<Timer>, log: TimerLog, timers': seq<Timer>, log': TimerLog) {
    && |timers| <= |timers'|
    && forall t :: 0 <= t < |timers| ==>
         && timers'[t].period == timers[t].period && timers'[t].due >= timers[t].due
         && FiredTimes(log'.fires, t) >= FiredTimes(log.fires, t)
         && (timers'[t].due == timers[t].due || t in log.firing || FiredTimes(log'.fires, t) > FiredTimes(log.fires, t))
  }

  lemma NothingMoved(timers: seq<Timer>, log: TimerLog)
    ensures MovedByFiring(timers, log, timers, log)
  {}

  lemma MovedOn(timers: seq<Timer>, log: TimerLog, timers1: seq<Timer>, log1: TimerLog,
                timers2: seq<Timer>, log2: TimerLog)
    requires MovedByFiring(timers, log, timers1, log1) && MovedByFiring(timers1, log1, timers2, log2)
    requires log1.firing == log.firing
    ensures MovedByFiring(timers, log, timers2, log2)
  {
    hide FiredTimes;
    forall t | 0 <= t < |timers|
      ensures timers2[t].due == timers[t].due || t in log.firing
           || FiredTimes(log2.fires, t) > FiredTimes(log.fires, t)
      ensures timers2[t].period == timers[t].period && timers2[t].due >= timers[t].due
      ensures FiredTimes(log2.fires, t) >= FiredTimes(log.fires, t)
    {
      assert timers1[t].due >= timers[t].due;
      assert timers2[t].due >= timers1[t].due;
    }
  }

  /** A timer is active exactly while its callback is open. */
  lemma ActiveIffFiring(timers: seq<Timer>, log: TimerLog)
    requires TimersOk(timers, log)
    ensures forall t :: 0 <= t < |timers| ==> (timers[t].active <==> t in log.firing)
  {
    hide OnGrid, FiresOk, FiresMove;
  }

  lemma TimerAdded(timers: seq<Timer>, log: TimerLog, now: real, period: real)
    requires TimersOk(timers, log) && period >= 1.0
    ensures TimersOk(timers + [Timer(now + period, period, false)], log.(grid := log.grid + [Grid(now, 1)]))
  {
    TimesNext(0, period);
    var timers', log' := timers + [Timer(now + period, period, false)], log.(grid := log.grid + [Grid(now, 1)]);
    forall i | 0 <= i < |log'.fires| ensures
        var f := log'.fires[i];
        && f.timer < |timers'| && f.timer !in f.inside && f.point < log'.grid[f.timer].point
        && Point(log'.grid[f.timer].base, timers'[f.timer].period, f.point) <= f.at
    {
      assert log.fires[i].timer < |timers|;
    }
  }

  /** Moving a timer past `at` along its grid. */
  function MovedTo(timers: seq<Timer>, t: nat, due: real): seq<Timer>
    requires t < |timers|
  {
    timers[t := timers[t].(due := due)]
  }

  function LogAt(log: TimerLog, t: nat, point: int): TimerLog
    requires t < |log.grid|
  {
    log.(grid := log.grid[t := log.grid[t].(point := point)])
  }

  lemma TimerMoved(timers: seq<Timer>, log: TimerLog, t: nat, at: real) returns (point: int)
    requires TimersOk(timers, log) && t < |timers|
    ensures TimersOk(MovedTo(timers, t, FirstAfter(timers[t].due, timers[t].period, at)), LogAt(log, t, point))
    ensures point >= log.grid[t].point && (timers[t].due <= at ==> point > log.grid[t].point)
    ensures FirstAfter(timers[t].due, timers[t].period, at) > at
  {
    hide Point;
    point := StaysOnGrid(log.grid[t].base, timers[t].period, log.grid[t].point, at);
    var timers' := MovedTo(timers, t, FirstAfter(timers[t].due, timers[t].period, at));
    var log' := LogAt(log, t, point);
    assert OnGrid(timers', log');
    assert FiringOk(timers', log'.firing);
    assert FiresOk(timers', log');
  }

  /** The fire of a timer just moved on from `f.point`, and its callback begins. */
  function Fired(log: TimerLog, f: Fire): TimerLog {
    log.(fires := log.fires + [f], firing := log.firing + [f.timer])
  }

  lemma TimerFired(timers: seq<Timer>, log: TimerLog, f: Fire)
    requires TimersOk(timers, log) && f.timer < |timers| && !timers[f.timer].active && f.inside == log.firing
    requires f.point < log.grid[f.timer].point
    requires Point(log.grid[f.timer].base, timers[f.timer].period, f.point) <= f.at
    requires forall i :: 0 <= i < |log.fires| && log.fires[i].timer == f.timer ==> log.fires[i].point < f.point
    ensures TimersOk(timers[f.timer := timers[f.timer].(active := true)], Fired(log, f))
  {
    hide Point;
    var timers', log' := timers[f.timer := timers[f.timer].(active := true)], Fired(log, f);
    assert OnGrid(timers', log');
    assert FiresOk(timers', log');
    FiringEntered(timers, log.firing, f.timer);
  }

  lemma FiringEntered(timers: seq<Timer>, firing: seq<nat>, t: nat)
    requires FiringOk(timers, firing) && t < |timers| && !timers[t].active
    ensures FiringOk(timers[t := timers[t].(active := true)], firing + [t])
  {
    var firing' := firing + [t];
    assert t !in firing;
    forall i, j | 0 <= i < j < |firing'| ensures firing'[i] != firing'[j] {
      if j == |firing| { assert firing[i] in firing; }
    }
    assert forall x: nat :: x in firing' <==> x in firing || x == t;
  }

  lemma FiresBehind(timers: seq<Timer>, log: TimerLog, t: nat)
    requires TimersOk(timers, log) && t < |timers|
    ensures |log.grid| == |timers| && timers[t].due == Point(log.grid[t].base, timers[t].period, log.grid[t].point)
    ensures forall i :: 0 <= i < |log.fires| && log.fires[i].timer == t ==> log.fires[i].point < log.grid[t].point
  {}

  lemma TimerReturned(timers: seq<Timer>, log: TimerLog, t: nat)
    requires TimersOk(timers, log) && log.firing != [] && t == log.firing[|log.firing| - 1]
    ensures t < |timers|
    ensures TimersOk(timers[t := timers[t].(active := false)], log.(firing := log.firing[..|log.firing| - 1]))
  {
    hide Point;
    assert t in log.firing;
    var timers', log' := timers[t := timers[t].(active := false)], log.(firing := log.firing[..|log.firing| - 1]);
    assert log.firing == log'.firing + [t];
    assert OnGrid(timers', log');
    assert FiresOk(timers', log');
    FiringLeft(timers, log.firing, t);
  }

  lemma FiringLeft(timers: seq<Timer>, firing: seq<nat>, t: nat)
    requires FiringOk(timers, firing) && firing != [] && t == firing[|firing| - 1] && t < |timers|
    ensures FiringOk(timers[t := timers[t].(active := false)], firing[..|firing| - 1])
  {
    var firing' := firing[..|firing| - 1];
    assert firing == firing' + [t];
    assert forall x: nat :: x in firing <==> x in firing' || x == t;
    assert forall i :: 0 <= i < |firing'| ==> firing'[i] == firing[i] != t;
  }

  /** Which timers are inside their callbacks says which are active. */
  lemma ActiveTold(timers: seq<Timer>, log: TimerLog, timers': seq<Timer>, log': TimerLog)
    requires TimersOk(timers, log) && TimersOk(timers', log') && log.firing == log'.firing && |timers| <= |timers'|
    ensures forall t :: 0 <= t < |timers| ==> timers'[t].active == timers[t].active
  {
    hide OnGrid, FiresOk, FiresMove;
  }

  // ---- health --------------------------------------------------------------------------------

  type Rung = nat  // a controller state; 0 is "", unknown
  datatype Health = Health(channel: nat, said: Rung)

  /** What was sampled for a handler, and when. */
  datatype Sample = Sample(handler: nat, rung: Rung, at: real)

  function SaidLast(told: seq<Rung>): Rung { if told == [] then 0 else told[|told| - 1] }

  /** What a handler is to be told of the samples: the states known, and each new to it. */
  function News(sampled: seq<Sample>, h: nat): seq<Rung> {
    if sampled == [] then []
    else
      var told, s := News(sampled[..|sampled| - 1], h), sampled[|sampled| - 1];
      if s.handler == h && s.rung != 0 && s.rung != SaidLast(told) then told + [s.rung] else told
  }

  /** A handler is told known states, and never the same one twice running. */
  ghost predicate TellsNews(told: seq<Rung>) {
    && (forall i :: 0 <= i < |told| ==> told[i] != 0)
    && (forall i :: 0 < i < |told| ==> told[i] != told[i - 1])
  }

  lemma {:induction false} NewsTellsNews(sampled: seq<Sample>, h: nat)
    ensures TellsNews(News(sampled, h))
  {
    if sampled != [] { NewsTellsNews(sampled[..|sampled| - 1], h); }
  }

  /** And after each sample of it, the last it was told is what it shows, if it is known. */
  lemma {:induction false} NewestTold(sampled: seq<Sample>, h: nat)
    ensures sampled != [] && sampled[|sampled| - 1].handler == h && sampled[|sampled| - 1].rung != 0 ==>
              SaidLast(News(sampled, h)) == sampled[|sampled| - 1].rung
  {}

  ghost predicate HealthOk(health: seq<Health>, told: seq<seq<Rung>>, sampled: seq<Sample>) {
    && |told| == |health|
    && (forall h: nat :: h < |health| ==> told[h] == News(sampled, h) && health[h].said == SaidLast(told[h]))
    && forall i :: 0 <= i < |sampled| ==> sampled[i].handler < |health|
  }

  /** Nothing said is unsaid. */
  ghost predicate MoreTold(told: seq<seq<Rung>>, told': seq<seq<Rung>>) {
    |told| <= |told'| && forall h :: 0 <= h < |told| ==> told[h] <= told'[h]
  }

  /** A handler was sampled, not before `from`, nor before `at`. */
  ghost predicate SampledSince(h: nat, sampled: seq<Sample>, from: nat, at: real) {
    exists i :: from <= i < |sampled| && sampled[i].handler == h && sampled[i].at >= at
  }

  ghost predicate Polled(handlers: seq<nat>, sampled: seq<Sample>, from: nat, at: real) {
    forall h :: h in handlers ==> SampledSince(h, sampled, from, at)
  }

  lemma NonePolled(sampled: seq<Sample>, from: nat, at: real)
    ensures Polled([], sampled, from, at)
  {}

  lemma SampledStill(h: nat, sampled: seq<Sample>, sampled': seq<Sample>, from: nat, from': nat, at: real, at': real)
    requires SampledSince(h, sampled, from', at') && sampled <= sampled' && from <= from' && at <= at'
    ensures SampledSince(h, sampled', from, at)
  {
    var i :| from' <= i < |sampled| && sampled[i].handler == h && sampled[i].at >= at';
    assert sampled'[i] == sampled[i];
  }

  lemma OneMorePolled(handlers: seq<nat>, sampled: seq<Sample>, sampled': seq<Sample>, h: nat, from: nat, at: real)
    requires Polled(handlers, sampled, from, at) && sampled <= sampled' && SampledSince(h, sampled', from, at)
    ensures Polled(handlers + [h], sampled', from, at)
  {
    hide SampledSince;
    PolledStill(handlers, handlers, sampled, sampled', from, from, at, at);
  }

  /** And still was, seen from earlier, of fewer of them. */
  lemma PolledStill(handlers: seq<nat>, handlers': seq<nat>, sampled: seq<Sample>, sampled': seq<Sample>,
                    from: nat, from': nat, at: real, at': real)
    requires Polled(handlers', sampled, from', at') && handlers <= handlers' && sampled <= sampled'
    requires from <= from' && at <= at'
    ensures Polled(handlers, sampled', from, at)
  {
    hide SampledSince;
    forall h | h in handlers ensures SampledSince(h, sampled', from, at) {
      assert h in handlers';
      SampledStill(h, sampled, sampled', from, from', at, at');
    }
  }

  lemma NothingTold(told: seq<seq<Rung>>)
    ensures MoreTold(told, told)
  {}

  lemma MoreToldOn(told: seq<seq<Rung>>, told1: seq<seq<Rung>>, told2: seq<seq<Rung>>)
    requires MoreTold(told, told1) && MoreTold(told1, told2)
    ensures MoreTold(told, told2)
  {}

  lemma {:induction false} NoNewsOf(sampled: seq<Sample>, h: nat)
    requires forall i :: 0 <= i < |sampled| ==> sampled[i].handler < h
    ensures News(sampled, h) == []
  {
    if sampled != [] { NoNewsOf(sampled[..|sampled| - 1], h); }
  }

  lemma SaidIsThere(health: seq<Health>, told: seq<seq<Rung>>, sampled: seq<Sample>, h: nat)
    requires HealthOk(health, told, sampled) && h < |health|
    ensures h < |told|
  {}

  lemma HealthAdded(health: seq<Health>, told: seq<seq<Rung>>, sampled: seq<Sample>, channel: nat)
    requires HealthOk(health, told, sampled)
    ensures HealthOk(health + [Health(channel, 0)], told + [[]], sampled)
  {
    NoNewsOf(sampled, |health|);
  }

  /** Handler `h` was sampled; it is told what it shows, a state known and new to it. */
  lemma HealthSampled(health: seq<Health>, told: seq<seq<Rung>>, sampled: seq<Sample>, h: nat, s: Rung, at: real)
    requires HealthOk(health, told, sampled) && h < |health|
    ensures var sampled' := sampled + [Sample(h, s, at)];
            if s != 0 && s != health[h].said
            then HealthOk(health[h := health[h].(said := s)], told[h := told[h] + [s]], sampled')
            else HealthOk(health, told, sampled')
    ensures MoreTold(told, told[h := told[h] + [s]])
  {
    var sampled' := sampled + [Sample(h, s, at)];
    assert sampled'[..|sampled|] == sampled;
    assert forall k: nat :: k < |health| && k != h ==> News(sampled', k) == News(sampled, k);
  }

  // ---- deadlines -----------------------------------------------------------------------------

  /** Something a run took up: the clock it read just before, and its deadline. `Waited` also has the
      budget it asked for and the timers it could be late for; `TookFrame` what the wait that brought the
      frame read: `start` when it began, `look` before the call that took it, which the driver was `asked`
      to wait in. `TookArrival` is a frame of a wait that wastes no time, taken when it came. */
  datatype Up =
    | FiredTimer(at: real, deadline: real)
    | SampledHealth(at: real, deadline: real)
    | Waited(at: real, deadline: real, budget: real, dues: seq<real>)
    | TookFrame(at: real, deadline: real, budget: real, start: real, channels: nat, look: real, asked: int)
    | TookArrival(at: real, deadline: real, budget: real, came: real)

  predicate TakesFrame(u: Up) { u.TookFrame? || u.TookArrival? }

  predicate InTime(u: Up) {
    match u
    case FiredTimer(at, deadline) => at < deadline
    case SampledHealth(at, deadline) => at < deadline
    case Waited(at, deadline, budget, dues) =>
      && AsksWhatIsLeft(at, deadline, budget) && budget <= 1000.0
      && forall i :: 0 <= i < |dues| ==> budget == 0.0 || at + budget <= dues[i]
    case TookFrame(at, deadline, budget, start, channels, look, asked) =>
      && AsksWhatIsLeft(at, deadline, budget) && at <= start
      && channels > 0 && CallInTime(channels, start, budget, look, asked)
    case TookArrival(at, deadline, budget, came) =>
      AsksWhatIsLeft(at, deadline, budget) && at <= came <= at + budget
  }

  /** A frame is taken past its run's deadline by no more than what passed between the run's reading and
      the wait's, and only in a wait that overruns it. */
  lemma FrameLateByNoMore(u: Up)
    requires u.TookFrame? && InTime(u)
    ensures u.look < u.deadline + (u.start - u.at) && u.look + u.asked as real <= u.deadline + (u.start - u.at)
    ensures CanTakeLate(u.deadline, u.look, u.asked) ==>
              Overruns(u.channels, u.deadline, u.budget, u.start) && u.start > u.at
  {
    LateByNoMore(u.channels, u.at, u.deadline, u.budget, u.start, u.look, u.asked);
    LateIff(u.channels, u.deadline, u.budget, u.start);
    InTimeIfPrompt(u.channels, u.at, u.deadline, u.budget, u.start);
  }

  // ---- what only grows -----------------------------------------------------------------------

  /** Where everything stands that only grows: registrations but for a forgetting, which upsets. */
  datatype Marks = Marks(timers: seq<Timer>, log: TimerLog, told: seq<seq<Rung>>, sampled: seq<Sample>,
                         taken: seq<TakenUp>, ups: seq<Up>,
                         onMsg: seq<Handler>, onTimer: seq<nat>, onHealth: seq<nat>, upsets: nat)

  ghost predicate Grew(a: Marks, b: Marks) {
    && MovedByFiring(a.timers, a.log, b.timers, b.log) && MoreTold(a.told, b.told)
    && a.sampled <= b.sampled && a.taken <= b.taken && a.ups <= b.ups && a.upsets <= b.upsets
    && (b.upsets == a.upsets ==> a.onMsg <= b.onMsg && a.onTimer <= b.onTimer && a.onHealth <= b.onHealth)
  }

  lemma GrewNone(a: Marks)
    ensures Grew(a, a)
  {}

  lemma GrewOn(a: Marks, b: Marks, c: Marks)
    requires Grew(a, b) && Grew(b, c) && b.log.firing == a.log.firing
    ensures Grew(a, c)
  {
    MovedOn(a.timers, a.log, b.timers, b.log, c.timers, c.log);
    MoreToldOn(a.told, b.told, c.told);
    hide MovedByFiring, MoreTold;
  }

  lemma GrewSeqs(a: Marks, b: Marks)
    requires Grew(a, b)
    ensures a.sampled <= b.sampled && a.taken <= b.taken && a.ups <= b.ups && a.upsets <= b.upsets
    ensures b.upsets == a.upsets ==> a.onMsg <= b.onMsg && a.onTimer <= b.onTimer && a.onHealth <= b.onHealth
  {}

  /** The timers and what was told being as they were. */
  lemma GrewBeside(a: Marks, b: Marks)
    requires b.timers == a.timers && b.log == a.log && b.told == a.told
    requires a.sampled <= b.sampled && a.taken <= b.taken && a.ups <= b.ups && a.upsets <= b.upsets
    requires b.upsets == a.upsets ==> a.onMsg <= b.onMsg && a.onTimer <= b.onTimer && a.onHealth <= b.onHealth
    ensures Grew(a, b)
  {}

  /** A timer's fire: it enters its callback, the callback does what it does, and it is moved on again after. */
  lemma FireGrew(a: Marks, b: Marks, c: Marks, d: Marks, t: nat)
    requires t < |a.timers| == |b.timers| && Grew(a, b)
    requires FiredTimes(b.log.fires, t) > FiredTimes(a.log.fires, t) && b.log.firing == a.log.firing + [t]
    requires Grew(b, c)
    requires d == c.(timers := d.timers, log := d.log) && |d.timers| == |c.timers| && d.log.fires == c.log.fires
    requires forall k :: 0 <= k < |c.timers| ==>
               d.timers[k].period == c.timers[k].period && d.timers[k].due >= c.timers[k].due
    requires forall k :: 0 <= k < |c.timers| && k != t ==> d.timers[k].due == c.timers[k].due
    ensures Grew(a, d)
    ensures FiredTimes(d.log.fires, t) > FiredTimes(a.log.fires, t)
  {
    hide FiredTimes;
    MoreToldOn(a.told, b.told, c.told);
    GrewSeqs(a, b);
    GrewSeqs(b, c);
    forall k | 0 <= k < |a.timers|
      ensures d.timers[k].due == a.timers[k].due || k in a.log.firing
           || FiredTimes(d.log.fires, k) > FiredTimes(a.log.fires, k)
      ensures d.timers[k].period == a.timers[k].period && d.timers[k].due >= a.timers[k].due
      ensures FiredTimes(d.log.fires, k) >= FiredTimes(a.log.fires, k)
    {
      assert b.timers[k].due >= a.timers[k].due && c.timers[k].due >= b.timers[k].due;
    }
  }

  /** What has moved was fired, but inside its own callback. */
  lemma GrewFired(a: Marks, b: Marks)
    requires Grew(a, b)
    ensures |a.timers| <= |b.timers|
    ensures forall t :: 0 <= t < |a.timers| && t !in a.log.firing && b.timers[t].due != a.timers[t].due ==>
              FiredTimes(b.log.fires, t) > FiredTimes(a.log.fires, t)
  {
    hide FiredTimes;
  }

  lemma GrewTimers(a: Marks, b: Marks)
    requires Grew(a, b)
    ensures |a.timers| <= |b.timers| && forall t :: 0 <= t < |a.timers| ==> b.timers[t].due >= a.timers[t].due
  {
    hide FiredTimes;
    forall t | 0 <= t < |a.timers| ensures b.timers[t].due >= a.timers[t].due {}
  }

  ghost predicate UpsOk(ups: seq<Up>) {
    forall i :: 0 <= i < |ups| ==> InTime(ups[i])
  }

  const NOTHING_DISPATCHED := Dispatch([], [], {}, [])
  const NOTHING_FIRED := TimerLog([], [], [])

  lemma NothingYet()
    ensures FramesOk([], NOTHING_DISPATCHED, 0) && TimersOk([], NOTHING_FIRED) && HealthOk([], [], []) && UpsOk([])
  {}
}
