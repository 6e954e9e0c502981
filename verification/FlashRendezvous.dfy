/**
 A flash in progress: the engine's thread says what it does, the caller's thread reports it, and a
 progress call waits until it was made. Any list of acts is an interleaving; one that its thread is
 not ready for leaves everything as it is.
 */
module FlashRendezvous {
  import opened Basics

  /** What the session does, step by step. Before a block the engine reads its cancel flag. */
  datatype Op = Note | Block | Progress

  datatype Message = Said(op: nat) | End

  /** `Forked`: its thread is there, but has not marked itself started yet; `Waiting(op)`: inside the
      progress callback of that step. */
  datatype EnginePc = Unborn | Forked | Spawned | Running | Waiting(op: nat) | Ending | Gone

  datatype Engine = Engine(at: EnginePc, next: nat, blocks: nat, stopped: bool)

  /** `Cancelling`: progress raised; `Setting(op, raised)`: about to let the engine's callback go on;
      `Caught`: about to release it for good; `Joining`: cancelling until its thread has ended. */
  datatype Caller =
    | Starting
    | Getting
    | Taken(op: nat)
    | Calling(op: nat)
    | Cancelling(op: nat)
    | Setting(op: nat, raised: bool)
    | Caught
    | Joining
    | LastJoin
    | Left(raising: bool)

  datatype State = State(plan: seq<Op>, engine: Engine, caller: Caller, queue: seq<Message>, handled: set<nat>,
                         released: bool, cancel: bool, told: seq<nat>, raisedAt: Option<nat>,
                         escaped: bool, skipped: bool)

  /** `Work(fails)`: the engine's next step, or its failure there. `Go(raises)`: the caller's, the
      progress function raising. `Interrupt(spawned)`: Ctrl-C in the caller, inside start() before or
      after the thread is there, or at the end inside the report or after it. */
  datatype Act = Work(fails: bool) | Go(raises: bool) | Interrupt(spawned: bool)

  function Init(plan: seq<Op>): State {
    State(plan, Engine(Unborn, 0, 0, false), Starting, [], {}, false, false, [], None, false, false)
  }

  /** Whether the engine's thread is there. */
  function Present(at: EnginePc): bool { at != Unborn && at != Gone }

  /** Whether it says it is: only once it has marked itself started. */
  function Alive(at: EnginePc): bool { Present(at) && at != Forked }

  /** The session's own cancel flag: there is none before it began or once it ended. */
  function Cancelled(s: State): bool {
    s.cancel || s.engine.at == Running || s.engine.at.Waiting?
  }

  /** The engine's step, and what it says. */
  function Working(plan: seq<Op>, e: Engine, cancel: bool, free: bool, fails: bool): (Engine, seq<Message>) {
    match e.at
    case Forked => (e.(at := Spawned), [])
    case Spawned => (e.(at := if fails then Ending else Running, stopped := fails), [])
    case Running =>
      if e.next >= |plan| || fails then (e.(at := Ending, stopped := fails), [])
      else (
        match plan[e.next]
        case Note => (e.(next := e.next + 1), [Said(e.next)])
        case Block =>
          if cancel then (e.(at := Ending, stopped := true), [])
          else (e.(next := e.next + 1, blocks := e.blocks + 1), [])
        case Progress => (e.(at := Waiting(e.next), next := e.next + 1), [Said(e.next)])
      )
    case Waiting(_) => if free then (e.(at := Running), []) else (e, [])
    case Ending => (e.(at := Gone), [End])
    case _ => (e, [])
  }

  function Free(s: State): bool { s.released || (s.engine.at.Waiting? && s.engine.at.op in s.handled) }

  function EngineStep(s: State, fails: bool): State {
    var (e, said) := Working(s.plan, s.engine, s.cancel, Free(s), fails);
    s.(engine := e, queue := s.queue + said)
  }

  /** The first thing the engine said. */
  function Heard(s: State): State
    requires s.queue != []
  {
    var s' := s.(queue := s.queue[1..]);
    match s.queue[0]
    case End => s'.(caller := LastJoin)
    case Said(op) =>
      if op < |s.plan| && s.plan[op] == Note then s'.(told := s.told + [op]) else s'.(caller := Taken(op))
  }

  function CallerStep(s: State, raises: bool): State {
    match s.caller
    case Starting => s.(engine := s.engine.(at := Spawned), caller := Getting)
    case Getting => if s.queue == [] then s else Heard(s)
    case Taken(op) => s.(caller := Calling(op), told := s.told + [op])
    case Calling(op) =>
      if raises then s.(caller := Cancelling(op), raisedAt := Some(s.engine.blocks))
      else s.(caller := Setting(op, false))
    case Cancelling(op) => s.(caller := Setting(op, true), cancel := Cancelled(s))
    case Setting(op, raised) => s.(caller := if raised then Caught else Getting, handled := s.handled + {op})
    case Caught => s.(caller := Joining, released := true)
    case Joining => if Alive(s.engine.at) then s.(cancel := Cancelled(s)) else s.(caller := Left(true))
    case LastJoin => if Alive(s.engine.at) then s else s.(caller := Left(s.engine.stopped))
    case Left(_) => s
  }

  /** Inside the progress function it is the progress function that raises. A second one, while the
      first is being handled, escapes; one that comes before the cancel skips it. */
  function Interrupted(s: State, spawned: bool): State {
    s.(caller := InterruptedAt(s.caller, spawned),
       engine := if s.caller.Starting? then s.engine.(at := if spawned then Forked else Unborn) else s.engine,
       raisedAt := if s.caller.Calling? then Some(s.engine.blocks) else s.raisedAt,
       escaped := s.escaped || s.caller.Cancelling? || s.caller.Caught? || s.caller.Joining?,
       skipped := s.skipped || s.caller.Cancelling?)
  }

  function InterruptedAt(c: Caller, spawned: bool): Caller {
    match c
    case Starting => Caught
    case Getting => Caught
    case Taken(_) => Caught
    case Calling(op) => Cancelling(op)
    case Cancelling(op) => Setting(op, true)
    case Setting(_, _) => Caught
    case Caught => Left(true)
    case Joining => Left(true)
    case LastJoin => if spawned then Caught else Left(true)
    case Left(_) => c
  }

  function Step(s: State, a: Act): State {
    match a
    case Work(fails) => EngineStep(s, fails)
    case Go(raises) => CallerStep(s, raises)
    case Interrupt(spawned) => Interrupted(s, spawned)
  }

  function Run(s: State, acts: seq<Act>): State
    decreases |acts|
  {
    if acts == [] then s else Run(Step(s, acts[0]), acts[1..])
  }

  /** What the first `n` steps of the plan say, in order. */
  function Sayings(plan: seq<Op>, n: nat): (r: seq<nat>)
    requires n <= |plan|
  {
    if n == 0 then [] else Sayings(plan, n - 1) + if plan[n - 1] == Block then [] else [n - 1]
  }

  function Ops(queue: seq<Message>): seq<nat> {
    if queue == [] then []
    else (match queue[0] { case Said(op) => [op] case End => [] }) + Ops(queue[1..])
  }

  lemma {:induction false} OpsAnd(queue: seq<Message>, m: Message)
    ensures Ops(queue + [m]) == Ops(queue) + match m { case Said(op) => [op] case End => [] }
  {
    if queue == [] {
      assert queue + [m] == [m];
    } else {
      OpsAnd(queue[1..], m);
      assert queue + [m] == [queue[0]] + (queue[1..] + [m]);
    }
  }

  // ---- what every step keeps ------------------------------------------------------------------

  /** The engine's account of itself. */
  ghost predicate EngineOk(plan: seq<Op>, e: Engine) {
    && e.next <= |plan| && e.blocks + |Sayings(plan, e.next)| == e.next
    && (e.at.Waiting? ==> e.at.op + 1 == e.next && plan[e.at.op] == Progress)
    && (e.at == Unborn || e.at == Forked || e.at == Spawned ==> e.next == 0 && e.blocks == 0)
    && ((e.at == Ending || e.at == Gone) && !e.stopped ==> e.next == |plan|)
    && (e.stopped ==> e.at == Ending || e.at == Gone)
  }

  /** A progress call that was not made yet is the last thing said, and the engine waits for it;
      the end is the last thing said too. */
  ghost predicate QueueOk(plan: seq<Op>, e: Engine, queue: seq<Message>, handled: set<nat>) {
    && (forall i :: 0 <= i < |queue| ==> queue[i].Said? ==> queue[i].op < |plan| && plan[queue[i].op] != Block)
    && (forall i :: 0 <= i < |queue| ==> queue[i].Said? && plan[queue[i].op] == Progress ==>
          i == |queue| - 1 && e.at == Waiting(queue[i].op) && queue[i].op !in handled)
    && (forall i :: 0 <= i < |queue| ==> queue[i] == End ==> i == |queue| - 1 && e.at == Gone)
    && (e.at.Waiting? && e.at.op !in handled ==> queue != [] && queue[|queue| - 1] == Said(e.at.op))
    && (e.at == Gone ==> queue != [] && queue[|queue| - 1] == End)
  }

  predicate Begun(at: EnginePc) { at != Unborn && at != Forked }

  /** The engine waits for the caller, which holds what it said last. */
  ghost predicate Held(s: State, op: nat) {
    s.engine.at == Waiting(op) && op !in s.handled && s.queue == []
  }

  ghost predicate Told(s: State, rest: seq<nat>) {
    s.engine.next <= |s.plan| && s.told + rest == Sayings(s.plan, s.engine.next)
  }

  ghost predicate ToldSome(s: State) {
    s.engine.next <= |s.plan| && s.told <= Sayings(s.plan, s.engine.next)
  }

  /** Nothing was raised, cancelled or released yet. */
  predicate Calm(s: State) { !s.released && !s.cancel && s.raisedAt.None? && !s.escaped && !s.skipped }

  /** No block since progress raised, and none to come: the cancel is up, or the engine past its plan. */
  predicate Stopped(s: State) {
    s.raisedAt.Some? && !s.skipped ==>
      s.engine.blocks == s.raisedAt.value && (s.cancel || s.engine.at == Ending || s.engine.at == Gone)
  }

  ghost predicate CallerOk(s: State) {
    match s.caller
    case Starting =>
      Calm(s) && s.engine == Engine(Unborn, 0, 0, false) && s.queue == [] && s.told == [] && s.handled == {}
    case Getting =>
      Calm(s) && Begun(s.engine.at) && Told(s, Ops(s.queue)) && QueueOk(s.plan, s.engine, s.queue, s.handled)
    case Taken(op) => Calm(s) && Held(s, op) && Told(s, [op])
    case Calling(op) => Calm(s) && Held(s, op) && Told(s, [])
    case Cancelling(op) =>
      !s.released && !s.cancel && !s.skipped && Held(s, op) && Told(s, []) && s.raisedAt == Some(s.engine.blocks)
    case Setting(op, raised) =>
      !s.released && Held(s, op) && Told(s, []) && (if raised then s.raisedAt.Some? && Stopped(s) else Calm(s))
    case Caught => !s.released && ToldSome(s) && Stopped(s)
    case Joining => s.released && ToldSome(s) && Stopped(s)
    case LastJoin => Calm(s) && s.engine.at == Gone && Told(s, [])
    case Left(raising) =>
      && ToldSome(s) && Stopped(s) && (!s.escaped ==> !Present(s.engine.at) || s.released)
      && (!raising ==> Calm(s) && s.engine.at == Gone && !s.engine.stopped && Told(s, []))
  }

  ghost predicate Inv(s: State) {
    && EngineOk(s.plan, s.engine) && CallerOk(s)
    && (forall op :: op in s.handled ==> op < s.engine.next)
    && (s.engine.at == Forked ==> !s.cancel && (s.caller.Caught? || s.caller.Joining? || s.caller.Left?))
  }

  /** What one engine step can do to its account. */
  lemma EngineMoves(plan: seq<Op>, e: Engine, cancel: bool, free: bool, fails: bool)
    requires EngineOk(plan, e)
    ensures var (e', said) := Working(plan, e, cancel, free, fails);
            && EngineOk(plan, e') && e.next <= e'.next && |said| <= 1 && (Begun(e.at) ==> Begun(e'.at))
            && (cancel || e.at == Ending || e.at == Gone ==> e'.blocks == e.blocks)
            && (e.at == Ending || e.at == Gone ==> e'.at == Gone)
            && (!Present(e.at) ==> e' == e && said == [])
            && (e.at.Waiting? && !free ==> e' == e && said == [])
  {
    if e.next < |plan| { SayingsNext(plan, e.next); }
    hide Sayings, Ops;
    match e.at { case _ => }
  }

  lemma OneOp(m: Message)
    ensures Ops([m]) == (match m { case Said(op) => [op] case End => [] }) && Ops([]) == []
  {}

  lemma SayingsNext(plan: seq<Op>, n: nat)
    requires n < |plan|
    ensures Sayings(plan, n + 1) == Sayings(plan, n) + if plan[n] == Block then [] else [n]
  {}

  /** It says what the plan says, in the plan's order. */
  lemma EngineSays(plan: seq<Op>, e: Engine, cancel: bool, free: bool, fails: bool)
    requires EngineOk(plan, e)
    ensures var (e', said) := Working(plan, e, cancel, free, fails);
            e'.next <= |plan| && Sayings(plan, e'.next) == Sayings(plan, e.next) + Ops(said)
  {
    hide Ops, Sayings;
    OneOp(Said(e.next));
    OneOp(End);
    if e.next < |plan| { SayingsNext(plan, e.next); }
    var here := Sayings(plan, e.next);
    assert here + [] == here;
    match e.at { case _ => }
  }

  lemma OpsMore(queue: seq<Message>, said: seq<Message>)
    requires |said| <= 1
    ensures Ops(queue + said) == Ops(queue) + Ops(said)
  {
    hide Ops;
    OneOp(End);
    if said == [] {
      assert queue + said == queue && Ops(queue) + [] == Ops(queue);
    } else {
      OneOp(said[0]);
      OpsAnd(queue, said[0]);
      assert said == [said[0]];
    }
  }

  lemma QueueKept(plan: seq<Op>, e: Engine, cancel: bool, fails: bool, queue: seq<Message>, handled: set<nat>)
    requires EngineOk(plan, e) && QueueOk(plan, e, queue, handled) && Begun(e.at)
    requires forall op :: op in handled ==> op < e.next
    ensures var (e', said) := Working(plan, e, cancel, e.at.Waiting? && e.at.op in handled, fails);
            QueueOk(plan, e', queue + said, handled)
  {
    var (e', said) := Working(plan, e, cancel, e.at.Waiting? && e.at.op in handled, fails);
    hide Sayings;
    if said == [] { assert queue + said == queue; }
  }

  lemma WorkKeeps(s: State, fails: bool)
    requires Inv(s)
    ensures Inv(EngineStep(s, fails))
  {
    hide QueueOk, EngineOk, Ops;
    EngineMoves(s.plan, s.engine, s.cancel, Free(s), fails);
    EngineSays(s.plan, s.engine, s.cancel, Free(s), fails);
    var (e, said) := Working(s.plan, s.engine, s.cancel, Free(s), fails);
    var s' := EngineStep(s, fails);
    hide Working, ToldSome, Cancelled;
    match s.caller {
      case Getting =>
        QueueKept(s.plan, s.engine, s.cancel, fails, s.queue, s.handled);
        OpsMore(s.queue, said);
        assert s.told + Ops(s.queue + said) == (s.told + Ops(s.queue)) + Ops(said);
      case Caught =>
      case Joining =>
      case Left(_) =>
      case _ => assert s'.queue == s.queue;
    }
  }

  /** What it hears first. */
  lemma HeardKeeps(s: State)
    requires Inv(s) && s.caller == Getting && s.queue != []
    ensures Inv(Heard(s))
  {
    var m, rest := s.queue[0], s.queue[1..];
    assert s.queue == [m] + rest;
    if m == End {
      assert rest == [] && s.told + Ops(s.queue) == s.told + [];
    } else {
      assert s.told + Ops(s.queue) == (s.told + [m.op]) + Ops(rest);
      if s.plan[m.op] == Progress { assert rest == [] && Ops(rest) == []; }
    }
  }

  /** While it reports or calls. */
  lemma ServingKeeps(s: State, raises: bool)
    requires Inv(s) && (s.caller.Taken? || s.caller.Calling? || s.caller.Cancelling?)
    ensures Inv(CallerStep(s, raises))
  {
    hide EngineOk, Sayings, Ops;
    if s.caller.Taken? { assert (s.told + [s.caller.op]) + [] == s.told + [s.caller.op]; }
  }

  /** When it lets the engine's callback go on. */
  lemma SettingKeeps(s: State, raises: bool)
    requires Inv(s) && s.caller.Setting?
    ensures Inv(CallerStep(s, raises))
  {
    assert s.engine.at.Waiting? ==> s.engine.at.op < s.engine.next;
    hide EngineOk, Sayings;
    NothingSaid(s.plan);
    hide Ops;
    assert s.told + Ops([]) == s.told + [];
  }

  /** On its way out. */
  lemma LeavingKeeps(s: State, raises: bool)
    requires Inv(s) && (s.caller.Caught? || s.caller.Joining? || s.caller.LastJoin? || s.caller.Left?)
    ensures Inv(CallerStep(s, raises))
  {
    hide EngineOk, Sayings, Ops, QueueOk, Heard;
    assert s.told + [] == s.told;
  }

  lemma GoKeeps(s: State, raises: bool)
    requires Inv(s)
    ensures Inv(CallerStep(s, raises))
  {
    NothingSaid(s.plan);
    match s.caller {
      case Starting => hide EngineOk, Sayings, Ops;
      case Getting => if s.queue != [] { HeardKeeps(s); }
      case Setting(_, _) => SettingKeeps(s, raises);
      case Taken(_) => ServingKeeps(s, raises);
      case Calling(_) => ServingKeeps(s, raises);
      case Cancelling(_) => ServingKeeps(s, raises);
      case _ => LeavingKeeps(s, raises);
    }
  }

  lemma NothingSaid(plan: seq<Op>)
    ensures Sayings(plan, 0) == [] && Ops([]) == [] && EngineOk(plan, Engine(Spawned, 0, 0, false))
    ensures EngineOk(plan, Engine(Unborn, 0, 0, false)) && EngineOk(plan, Engine(Forked, 0, 0, false))
  {}

  lemma InterruptKeeps(s: State, spawned: bool)
    requires Inv(s)
    ensures Inv(Interrupted(s, spawned))
  {
    hide EngineOk, Sayings, Ops;
    NothingSaid(s.plan);
  }

  lemma StepKeeps(s: State, a: Act)
    requires Inv(s)
    ensures Inv(Step(s, a)) && Step(s, a).plan == s.plan
  {
    hide Inv, Working, EngineOk, CallerOk;
    match a {
      case Work(fails) => WorkKeeps(s, fails);
      case Go(raises) => GoKeeps(s, raises);
      case Interrupt(spawned) => InterruptKeeps(s, spawned);
    }
  }

  lemma {:induction false} RunKeeps(s: State, acts: seq<Act>)
    requires Inv(s)
    ensures Inv(Run(s, acts)) && Run(s, acts).plan == s.plan
    decreases |acts|
  {
    hide Inv, Step;
    if acts != [] {
      StepKeeps(s, acts[0]);
      RunKeeps(Step(s, acts[0]), acts[1..]);
    }
  }

  lemma FromTheStart(plan: seq<Op>, acts: seq<Act>)
    ensures Inv(Run(Init(plan), acts)) && Run(Init(plan), acts).plan == plan
  {
    hide Step, Run;
    NothingSaid(plan);
    RunKeeps(Init(plan), acts);
  }

  // ---- over every interleaving ----------------------------------------------------------------

  /** What the plan says is each step that is not a block, once, in order. */
  lemma {:induction false} SayingsInOrder(plan: seq<Op>, n: nat)
    requires n <= |plan|
    ensures forall op: nat :: op in Sayings(plan, n) <==> op < n && plan[op] != Block
    ensures forall i, j :: 0 <= i < j < |Sayings(plan, n)| ==> Sayings(plan, n)[i] < Sayings(plan, n)[j]
  {
    if n > 0 {
      SayingsInOrder(plan, n - 1);
      var init := Sayings(plan, n - 1);
      forall i | 0 <= i < |init| ensures init[i] < n - 1 { assert init[i] in init; }
    }
  }

  /** What was reported is what the engine said so far, in its order, nothing twice. */
  lemma ReportedInOrder(plan: seq<Op>, acts: seq<Act>)
    ensures var s := Run(Init(plan), acts);
            && s.engine.next <= |plan| && s.told <= Sayings(plan, s.engine.next)
            && (forall i, j :: 0 <= i < j < |s.told| ==> s.told[i] < s.told[j])
            && (forall i :: 0 <= i < |s.told| ==> s.told[i] < s.engine.next && plan[s.told[i]] != Block)
  {
    hide Sayings, Ops, Step, Run;
    var s := Run(Init(plan), acts);
    FromTheStart(plan, acts);
    SayingsInOrder(plan, s.engine.next);
    forall i | 0 <= i < |s.told| ensures s.told[i] in Sayings(plan, s.engine.next) {
      assert s.told[i] == Sayings(plan, s.engine.next)[i];
    }
  }

  /** While the caller makes a progress call the engine waits for that one, so they are made one at a
      time and no block is sent meanwhile. */
  lemma EngineWaitsForTheCall(plan: seq<Op>, acts: seq<Act>, a: Act)
    ensures var s := Run(Init(plan), acts);
            s.caller.Calling? || s.caller.Cancelling? ==>
              && s.engine.at == Waiting(s.caller.op) && s.told != [] && s.told[|s.told| - 1] == s.caller.op
              && (a.Work? ==> Step(s, a) == s)
  {
    var s := Run(Init(plan), acts);
    FromTheStart(plan, acts);
    if s.caller.Calling? || s.caller.Cancelling? {
      SayingsNext(plan, s.caller.op);
      assert s.queue + [] == s.queue && s.told + [] == s.told;
    }
  }

  /** It was all sent and all reported, if that is what the caller is told. */
  lemma ReportIsComplete(plan: seq<Op>, acts: seq<Act>)
    ensures var s := Run(Init(plan), acts);
            s.caller == Left(false) ==>
              && s.engine.at == Gone && s.told == Sayings(plan, |plan|)
              && s.engine.blocks == |plan| - |Sayings(plan, |plan|)|
  {
    hide Sayings, Ops;
    FromTheStart(plan, acts);
  }

  /** Once progress raised, the engine goes on only with its cancel flag up, unless an interrupt
      skipped the cancel. */
  lemma CancelledBeforeItGoesOn(plan: seq<Op>, acts: seq<Act>)
    ensures var s := Run(Init(plan), acts);
            s.raisedAt.Some? && !s.skipped && !s.cancel ==>
              || s.engine.at == Ending || s.engine.at == Gone
              || (s.caller.Cancelling? && s.engine.at == Waiting(s.caller.op) && !Free(s))
  {
    hide Sayings, Ops;
    FromTheStart(plan, acts);
  }

  lemma StillRaised(s: State, a: Act)
    requires Inv(s) && s.raisedAt.Some?
    ensures Step(s, a).raisedAt == s.raisedAt && (s.skipped ==> Step(s, a).skipped)
  {
    hide EngineOk, Sayings, Ops, Working;
  }

  lemma {:induction false} RaisedOnce(s: State, more: seq<Act>)
    requires Inv(s) && s.raisedAt.Some?
    ensures Run(s, more).raisedAt == s.raisedAt && (s.skipped ==> Run(s, more).skipped)
    decreases |more|
  {
    hide Inv, Step;
    if more != [] {
      StepKeeps(s, more[0]);
      StillRaised(s, more[0]);
      RaisedOnce(Step(s, more[0]), more[1..]);
    }
  }

  /** No block is sent after progress raised, whatever happens next, unless an interrupt lands between
      the raise and the cancel. */
  lemma RaiseStopsTheTransfer(plan: seq<Op>, acts: seq<Act>, more: seq<Act>)
    ensures var s := Run(Init(plan), acts);
            s.raisedAt.Some? && !Run(s, more).skipped ==> Run(s, more).engine.blocks == s.engine.blocks
  {
    hide Sayings, Ops, Step, Run, EngineOk;
    var s := Run(Init(plan), acts);
    FromTheStart(plan, acts);
    if s.raisedAt.Some? && !Run(s, more).skipped {
      RaisedOnce(s, more);
      RunKeeps(s, more);
      Quiet(s);
      Quiet(Run(s, more));
    }
  }

  lemma Quiet(s: State)
    requires Inv(s) && s.raisedAt.Some? && !s.skipped
    ensures s.engine.blocks == s.raisedAt.value
  {
    hide EngineOk, Sayings, Ops;
  }

  // ---- what the caller is told ----------------------------------------------------------------

  /** Whether an act upsets the caller: an interrupt, before it has left, or its progress function raising. */
  predicate Upsets(s: State, a: Act) {
    (a.Interrupt? && !s.caller.Left?) || (s.caller.Calling? && a == Go(true))
  }

  predicate Upset(s: State, acts: seq<Act>)
    decreases |acts|
  {
    acts != [] && (Upsets(s, acts[0]) || Upset(Step(s, acts[0]), acts[1..]))
  }

  /** Whether a step of the session fails by itself, at its beginning or under way. */
  predicate Failed(s: State, acts: seq<Act>)
    decreases |acts|
  {
    acts != [] && ((acts[0] == Work(true) && (s.engine.at == Spawned || s.engine.at == Running))
                   || Failed(Step(s, acts[0]), acts[1..]))
  }

  /** On its way to raise what upset it. */
  predicate WillRaise(c: Caller) {
    c.Cancelling? || (c.Setting? && c.raised) || c == Caught || c == Joining || c == Left(true)
  }

  /** Nothing has upset it: it leaves saying what became of the engine. */
  predicate Untroubled(s: State) {
    && Calm(s) && !s.caller.Cancelling? && (s.caller.Setting? ==> !s.caller.raised) && s.caller != Caught
    && s.caller != Joining && (s.caller.Left? ==> s.caller.raising == s.engine.stopped && s.engine.at == Gone)
  }

  lemma UpsetRaises(s: State, a: Act)
    requires Inv(s) && (WillRaise(s.caller) || Upsets(s, a))
    ensures WillRaise(Step(s, a).caller)
  {
    hide EngineOk, Sayings, Ops, Working;
  }

  lemma {:induction false} RaisesOn(s: State, more: seq<Act>)
    requires Inv(s) && WillRaise(s.caller)
    ensures WillRaise(Run(s, more).caller)
    decreases |more|
  {
    hide Inv, Step, WillRaise;
    if more != [] {
      UpsetRaises(s, more[0]);
      StepKeeps(s, more[0]);
      RaisesOn(Step(s, more[0]), more[1..]);
    }
  }

  lemma UntroubledNext(s: State, a: Act)
    requires Inv(s) && Untroubled(s) && !Upsets(s, a)
    ensures Untroubled(Step(s, a))
    ensures Step(s, a).engine.stopped ==
              (s.engine.stopped || (a == Work(true) && (s.engine.at == Spawned || s.engine.at == Running)))
  {
    hide Sayings, Ops, QueueOk, Told;
    assert s.engine.at.Waiting? ==> s.engine.at.op < s.engine.next;
  }

  lemma {:induction false} UntroubledRun(s: State, acts: seq<Act>)
    requires Inv(s) && Untroubled(s) && !Upset(s, acts)
    ensures Untroubled(Run(s, acts)) && Run(s, acts).engine.stopped == (s.engine.stopped || Failed(s, acts))
    decreases |acts|
  {
    hide Inv, Step, Untroubled, Upsets;
    if acts != [] {
      UntroubledNext(s, acts[0]);
      StepKeeps(s, acts[0]);
      UntroubledRun(Step(s, acts[0]), acts[1..]);
    }
  }

  lemma {:induction false} UpsetRun(s: State, acts: seq<Act>)
    requires Inv(s) && Upset(s, acts)
    ensures WillRaise(Run(s, acts).caller)
    decreases |acts|
  {
    hide Inv, Step, WillRaise, Upsets;
    StepKeeps(s, acts[0]);
    if Upsets(s, acts[0]) {
      UpsetRaises(s, acts[0]);
      RaisesOn(Step(s, acts[0]), acts[1..]);
    } else {
      UpsetRun(Step(s, acts[0]), acts[1..]);
    }
  }

  /** A caller that leaves raises exactly if an interrupt or its progress function upset it, or the session
      failed; otherwise it is told of a success. */
  lemma RaisesIff(plan: seq<Op>, acts: seq<Act>)
    ensures var s := Run(Init(plan), acts);
            s.caller.Left? ==> (s.caller.raising <==> Upset(Init(plan), acts) || Failed(Init(plan), acts))
  {
    NothingSaid(plan);
    assert Inv(Init(plan));
    hide Inv, Run, Upset, Failed, Step;
    if Upset(Init(plan), acts) {
      UpsetRun(Init(plan), acts);
    } else {
      UntroubledRun(Init(plan), acts);
    }
  }

  /** What escapes: an interrupt that lands once the first trouble is being dealt with; between the raise and the
      cancel it skips the cancel. */
  lemma EscapesIff(s: State, a: Act)
    requires Inv(s)
    ensures !s.escaped ==>
              (Step(s, a).escaped <==>
                 a.Interrupt? && (s.caller.Cancelling? || s.caller == Caught || s.caller == Joining))
    ensures !s.skipped ==> (Step(s, a).skipped <==> a.Interrupt? && s.caller.Cancelling?)
  {
    hide EngineOk, Sayings, Ops, Working;
  }

  /** Cancelled, the session sends no more blocks, whatever happens next. */
  lemma CancelHolds(s: State, a: Act)
    requires Inv(s) && s.cancel
    ensures Step(s, a).cancel && Step(s, a).engine.blocks == s.engine.blocks
  {
    if a.Work? { EngineMoves(s.plan, s.engine, s.cancel, Free(s), a.fails); }
    hide EngineOk, Sayings, Ops, Working;
  }

  lemma {:induction false} CancelStops(s: State, more: seq<Act>)
    requires Inv(s) && s.cancel
    ensures Run(s, more).engine.blocks == s.engine.blocks
    decreases |more|
  {
    hide Inv, Step;
    if more != [] {
      CancelHolds(s, more[0]);
      StepKeeps(s, more[0]);
      CancelStops(Step(s, more[0]), more[1..]);
    }
  }

  /** And a caller on its way out cancels: its next look at a session that has begun is the last of its blocks. */
  lemma JoiningCancels(plan: seq<Op>, acts: seq<Act>, raises: bool, more: seq<Act>)
    ensures var s := Run(Init(plan), acts);
            s.caller == Joining && (s.engine.at == Running || s.engine.at.Waiting?) ==>
              && Step(s, Go(raises)).cancel && Step(s, Go(raises)).caller == Joining
              && Run(Step(s, Go(raises)), more).engine.blocks == s.engine.blocks
  {
    hide EngineOk, Sayings, Ops, Run, Working;
    var s := Run(Init(plan), acts);
    FromTheStart(plan, acts);
    if s.caller == Joining && (s.engine.at == Running || s.engine.at.Waiting?) {
      StepKeeps(s, Go(raises));
      CancelStops(Step(s, Go(raises)), more);
    }
  }

  /** Whether a block is left in the plan. */
  predicate BlockAhead(plan: seq<Op>, next: nat) { exists k :: next <= k < |plan| && plan[k] == Block }

  lemma NoBlockAhead(plan: seq<Op>, e: Engine, cancel: bool, free: bool, fails: bool)
    requires !BlockAhead(plan, e.next)
    ensures var e' := Working(plan, e, cancel, free, fails).0; e'.blocks == e.blocks && !BlockAhead(plan, e'.next)
  {
    match e.at { case _ => }
  }

  lemma StepSendsNone(s: State, a: Act)
    requires !BlockAhead(s.plan, s.engine.next)
    ensures Step(s, a).engine.blocks == s.engine.blocks && !BlockAhead(Step(s, a).plan, Step(s, a).engine.next)
  {
    if a.Work? { NoBlockAhead(s.plan, s.engine, s.cancel, Free(s), a.fails); }
    hide BlockAhead, Working;
  }

  lemma {:induction false} NoBlockLater(s: State, more: seq<Act>)
    requires !BlockAhead(s.plan, s.engine.next)
    ensures Run(s, more).engine.blocks == s.engine.blocks
    decreases |more|
  {
    hide BlockAhead, Step;
    if more != [] {
      StepSendsNone(s, more[0]);
      NoBlockLater(Step(s, more[0]), more[1..]);
    }
  }

  /** Released and not cancelled, the engine alone comes to its next block. */
  lemma {:induction false} ToBlock(s: State, k: nat) returns (more: seq<Act>)
    requires s.engine.next <= k < |s.plan| && s.plan[k] == Block && s.released && !s.cancel
    requires s.engine.at == Running || s.engine.at.Waiting?
    ensures Run(s, more).engine.blocks > s.engine.blocks
    decreases 2 * (k - s.engine.next) + if s.engine.at == Running then 0 else 1
  {
    var s' := Step(s, Work(false));
    if s'.engine.blocks > s.engine.blocks {
      more := [];
    } else {
      more := ToBlock(s', k);
    }
    hide Step;
    Unrolled(s, Work(false), more);
    more := [Work(false)] + more;
  }

  /** Between the raise and the cancel, what is left to an interrupt, exactly: it lets a block be sent
      if and only if the plan has one left. */
  lemma BlockFollowsIff(plan: seq<Op>, acts: seq<Act>)
    ensures var s := Run(Init(plan), acts);
            s.caller.Cancelling? ==>
              ((exists more :: Run(s, more).engine.blocks > s.engine.blocks) <==> BlockAhead(plan, s.engine.next))
  {
    hide Sayings, Ops, Run;
    var s := Run(Init(plan), acts);
    FromTheStart(plan, acts);
    if s.caller.Cancelling? {
      if BlockAhead(plan, s.engine.next) {
        var more := SkipTheCancel(s);
      } else {
        hide BlockAhead;
        forall more ensures Run(s, more).engine.blocks == s.engine.blocks { NoBlockLater(s, more); }
      }
    }
  }

  lemma SkipTheCancel(s: State) returns (more: seq<Act>)
    requires s.caller.Cancelling? && !s.cancel && s.engine.at.Waiting? && BlockAhead(s.plan, s.engine.next)
    ensures Run(s, more).engine.blocks > s.engine.blocks
  {
    var k :| s.engine.next <= k < |s.plan| && s.plan[k] == Block;
    var go, ctrlC := Go(false), Interrupt(true);
    var s1 := Step(s, ctrlC);
    var s2 := Step(s1, go);
    var s3 := Step(s2, go);
    more := ToBlock(s3, k);
    hide Step;
    Unrolled(s2, go, more);
    Unrolled(s1, go, [go] + more);
    Unrolled(s, ctrlC, [go] + ([go] + more));
    more := [ctrlC] + ([go] + ([go] + more));
  }

  /** Acts one after the other. */
  function Then(s: State, a: Act, b: Act, c: Act): State { Step(Step(Step(s, a), b), c) }

  lemma ThenRuns(s: State, a: Act, b: Act, c: Act, more: seq<Act>)
    ensures Run(s, [a] + ([b] + ([c] + more))) == Run(Then(s, a, b, c), more)
  {
    hide Step;
    Unrolled(s, a, [b] + ([c] + more));
    Unrolled(Step(s, a), b, [c] + more);
    Unrolled(Step(Step(s, a), b), c, more);
  }

  /** A plan's first progress call, made: the engine waits in it. */
  lemma FirstCall(plan: seq<Op>)
    requires plan != [] && plan[0] == Progress
    ensures var s := Then(Init(plan), Go(false), Work(false), Work(false));
            s == Init(plan).(engine := Engine(Waiting(0), 1, 0, false), caller := Getting, queue := [Said(0)])
  {
    var s1 := Step(Init(plan), Go(false));
    var s2 := Step(s1, Work(false));
    assert s2 == Init(plan).(engine := Engine(Running, 0, 0, false), caller := Getting);
  }

  lemma ItRaises(s: State)
    requires s.caller == Getting && s.queue == [Said(0)] && s.plan != [] && s.plan[0] == Progress
    ensures var s' := Then(s, Go(false), Go(false), Go(true));
            s'.caller == Cancelling(0) && s'.raisedAt.Some? && s'.engine == s.engine && s'.plan == s.plan
  {
    var s1 := Step(s, Go(false));
    assert s1 == s.(caller := Taken(0), queue := []);
    hide Working;
  }

  /** So there is a flash in which a block follows the raise. */
  lemma SkippedCancelSendsABlock()
    ensures exists plan, acts, more :: var s := Run(Init(plan), acts);
              s.raisedAt.Some? && Run(s, more).engine.blocks > s.engine.blocks
  {
    var plan := [Progress, Block];
    var go, work := Go(false), Work(false);
    var raising := [go] + ([go] + ([Go(true)] + []));
    var acts := [go] + ([work] + ([work] + raising));
    FirstCall(plan);
    ThenRuns(Init(plan), go, work, work, raising);
    var called := Then(Init(plan), go, work, work);
    ItRaises(called);
    ThenRuns(called, go, go, Go(true), []);
    assert plan[1] == Block && BlockAhead(plan, 1);
    assert Run(Then(called, go, go, Go(true)), []) == Then(called, go, go, Go(true));
    hide *;
    BlockFollowsIff(plan, acts);
    var s := Run(Init(plan), acts);
    var more :| Run(s, more).engine.blocks > s.engine.blocks;
    assert s.raisedAt.Some?;
  }

  lemma Unrolled(s: State, a: Act, acts: seq<Act>)
    ensures Run(s, [a] + acts) == Run(Step(s, a), acts)
  {
    assert ([a] + acts)[1..] == acts;
  }

  // ---- neither waits for ever -----------------------------------------------------------------

  function EngineRank(plan: seq<Op>, e: Engine): nat
    requires e.next <= |plan|
  {
    match e.at
    case Unborn => 4 + 2 * |plan|
    case Forked => 4 + 2 * |plan|
    case Spawned => 3 + 2 * |plan|
    case Running => 2 + 2 * (|plan| - e.next)
    case Waiting(_) => 3 + 2 * (|plan| - e.next)
    case Ending => 1
    case Gone => 0
  }

  function CallerRank(c: Caller): nat {
    match c
    case Starting => 9
    case Taken(_) => 8
    case Calling(_) => 7
    case Setting(_, raised) => if raised then 3 else 6
    case Getting => 5
    case Cancelling(_) => 4
    case Caught => 2
    case Joining => 1
    case LastJoin => 3
    case Left(_) => 0
  }

  /** What is left to do. */
  function Remaining(s: State): nat
    requires s.engine.next <= |s.plan|
  {
    5 * EngineRank(s.plan, s.engine) + 4 * |s.queue| + CallerRank(s.caller)
  }

  predicate Over(s: State) { s.caller.Left? && !Present(s.engine.at) }

  lemma EngineDown(plan: seq<Op>, e: Engine, cancel: bool, free: bool, fails: bool)
    requires EngineOk(plan, e)
    ensures var (e', said) := Working(plan, e, cancel, free, fails);
            && e'.next <= |plan| && 5 * EngineRank(plan, e') + 4 * |said| <= 5 * EngineRank(plan, e)
            && ((e.at.Waiting? ==> free) && Present(e.at) ==>
                5 * EngineRank(plan, e') + 4 * |said| < 5 * EngineRank(plan, e))
            && (e' == e ==> said == [])
            && (e' != e ==> 5 * EngineRank(plan, e') + 4 * |said| < 5 * EngineRank(plan, e))
  {
    hide Sayings;
    match e.at { case _ => }
  }

  lemma WorkDown(s: State, fails: bool)
    requires Inv(s)
    ensures EngineStep(s, fails).engine.next <= |s.plan|
    ensures EngineStep(s, fails) == s || Remaining(EngineStep(s, fails)) < Remaining(s)
  {
    EngineDown(s.plan, s.engine, s.cancel, Free(s), fails);
    assert s.queue + [] == s.queue;
    hide Sayings, Ops, Working, EngineOk, CallerOk;
  }

  lemma HeardDown(s: State)
    requires s.queue != [] && s.engine.next <= |s.plan| && s.caller == Getting
    ensures Heard(s).engine == s.engine && Heard(s).plan == s.plan && Remaining(Heard(s)) < Remaining(s)
  {
    hide EngineRank;
  }

  /** Where the caller's step changes no more than the cancel flag. */
  predicate Idle(s: State) {
    || s.caller.Left? || (s.caller == Getting && s.queue == [])
    || ((s.caller == Joining || s.caller == LastJoin) && Alive(s.engine.at))
  }

  lemma IdleStays(s: State, raises: bool)
    requires Idle(s)
    ensures CallerStep(s, raises) == s.(cancel := CallerStep(s, raises).cancel)
  {}

  lemma SpawnDown(s: State, raises: bool)
    requires s.caller == Starting && s.engine.at == Unborn && s.engine.next <= |s.plan|
    ensures CallerStep(s, raises).engine.next <= |s.plan| && CallerStep(s, raises).plan == s.plan
    ensures Remaining(CallerStep(s, raises)) < Remaining(s)
  {}

  lemma RankDown(s: State, raises: bool)
    requires !Idle(s) && s.caller != Getting && s.caller != Starting
    ensures var s' := CallerStep(s, raises);
            && s'.engine == s.engine && s'.plan == s.plan && s'.queue == s.queue
            && CallerRank(s'.caller) < CallerRank(s.caller)
  {
    hide Heard, Cancelled, EngineRank;
  }

  lemma GoDown(s: State, raises: bool)
    requires s.engine.next <= |s.plan| && (s.caller.Starting? ==> s.engine.at == Unborn)
    ensures CallerStep(s, raises).engine.next <= |s.plan| && CallerStep(s, raises).plan == s.plan
    ensures !Idle(s) ==> Remaining(CallerStep(s, raises)) < Remaining(s)
  {
    if Idle(s) {
      IdleStays(s, raises);
    } else if s.caller == Starting {
      SpawnDown(s, raises);
    } else if s.caller == Getting {
      HeardDown(s);
    } else {
      RankDown(s, raises);
      hide CallerStep, EngineRank, CallerRank;
    }
  }

  lemma InterruptSame(s: State, spawned: bool)
    ensures var s' := Interrupted(s, spawned);
            && s'.plan == s.plan && s'.queue == s.queue
            && (s.caller.Left? ==> s' == s)
            && (!s.caller.Left? ==> CallerRank(s'.caller) < CallerRank(s.caller))
            && (!s.caller.Starting? ==> s'.engine == s.engine)
            && (s.caller.Starting? ==> s'.engine == s.engine.(at := if spawned then Forked else Unborn))
  {}

  lemma InterruptDown(s: State, spawned: bool)
    requires s.engine.next <= |s.plan| && (s.caller.Starting? ==> s.engine.at == Unborn)
    ensures Interrupted(s, spawned).engine.next <= |s.plan| && Interrupted(s, spawned).plan == s.plan
    ensures if s.caller.Left? then Interrupted(s, spawned) == s else Remaining(Interrupted(s, spawned)) < Remaining(s)
  {
    InterruptSame(s, spawned);
    hide Interrupted, CallerRank;
  }

  lemma Started(s: State)
    requires Inv(s)
    ensures s.engine.next <= |s.plan| && (s.caller.Starting? ==> s.engine.at == Unborn)
  {}

  /** Every act that changes more than the cancel flag leaves less to do. */
  lemma NothingForNothing(s: State, a: Act)
    requires Inv(s)
    ensures Step(s, a).engine.next <= |Step(s, a).plan|
    ensures Step(s, a) == s.(cancel := Step(s, a).cancel) || Remaining(Step(s, a)) < Remaining(s)
  {
    Started(s);
    hide Inv, Remaining, Idle, CallerStep, Interrupted, EngineStep;
    match a {
      case Work(fails) => WorkDown(s, fails);
      case Go(raises) => GoDown(s, raises); if Idle(s) { IdleStays(s, raises); }
      case Interrupt(spawned) => InterruptDown(s, spawned);
    }
  }

  /** No interrupt among them. */
  predicate Undisturbed(acts: seq<Act>) { forall i :: 0 <= i < |acts| ==> !acts[i].Interrupt? }

  /** The engine waits in its callback, and nobody is left to let it go on. */
  predicate Stuck(s: State) {
    s.caller.Left? && s.engine.at.Waiting? && !s.released && s.engine.at.op !in s.handled
  }

  /** Whether the engine can go on by itself. */
  predicate EngineCan(s: State) { Present(s.engine.at) && (s.engine.at.Waiting? ==> Free(s)) }

  lemma EngineGoesOn(s: State)
    requires Inv(s) && EngineCan(s)
    ensures Step(s, Work(false)).engine.next <= |s.plan| && Remaining(Step(s, Work(false))) < Remaining(s)
  {
    EngineDown(s.plan, s.engine, s.cancel, Free(s), false);
    hide Working, EngineRank, EngineOk, CallerOk, Sayings;
  }

  /** Where the engine cannot, the caller can. */
  lemma CallerNotDone(s: State)
    requires Inv(s) && !Stuck(s) && !Over(s) && !EngineCan(s)
    ensures s.caller != Step(s, Go(false)).caller || |Step(s, Go(false)).queue| < |s.queue|
  {
    hide Sayings, Ops, EngineOk, Told, ToldSome;
  }

  /** Unless it is stuck, one of the two can go on until both are done. */
  lemma SomeoneGoesOn(s: State)
    requires Inv(s) && !Stuck(s) && !Over(s)
    ensures Step(s, Work(false)).engine.next <= |s.plan| && Step(s, Go(false)).engine.next <= |s.plan|
    ensures Remaining(Step(s, Work(false))) < Remaining(s) || Remaining(Step(s, Go(false))) < Remaining(s)
  {
    hide Stuck, Over, Step, Remaining, Inv;
    NothingForNothing(s, Work(false));
    NothingForNothing(s, Go(false));
    SamePlan(s);
    if EngineCan(s) {
      EngineGoesOn(s);
    } else {
      CallerNotDone(s);
    }
  }

  lemma SamePlan(s: State)
    ensures Step(s, Work(false)).plan == s.plan && Step(s, Go(false)).plan == s.plan
  {
    hide Working;
  }

  /** An engine whose caller has left goes to its end by failing, if it is not stuck. */
  lemma FailingGoesOn(s: State)
    requires Inv(s) && !Stuck(s) && !Over(s) && s.caller.Left?
    ensures Step(s, Work(true)).engine.next <= |s.plan| && Remaining(Step(s, Work(true))) < Remaining(s)
    ensures !Stuck(Step(s, Work(true)))
  {
    NothingForNothing(s, Work(true));
    EngineDown(s.plan, s.engine, s.cancel, Free(s), true);
    hide Sayings, Ops, EngineOk, Told, ToldSome;
  }

  /** A caller leaves only an engine that is gone, short of an interrupt. */
  lemma NotStuckNext(s: State, a: Act)
    requires Inv(s) && !Stuck(s) && !s.caller.Left? && !a.Interrupt?
    ensures !Stuck(Step(s, a))
  {
    hide Sayings, Ops, Working, EngineOk, Told, ToldSome;
  }

  lemma {:induction false} ToTheEnd(s: State) returns (more: seq<Act>)
    requires Inv(s) && !Stuck(s)
    ensures Over(Run(s, more)) && Undisturbed(more)
    decreases Remaining(s)
  {
    hide Step, Inv, Remaining, Over, Stuck;
    if Over(s) { return []; }
    var a := Work(true);
    if s.caller.Left? {
      FailingGoesOn(s);
    } else {
      SomeoneGoesOn(s);
      assert s.engine.next <= |s.plan| && Step(s, Work(false)).plan == s.plan by {
        StepKeeps(s, Work(false));
        InBounds(s);
      }
      a := if Remaining(Step(s, Work(false))) < Remaining(s) then Work(false) else Go(false);
      NotStuckNext(s, a);
    }
    StepKeeps(s, a);
    more := ToTheEnd(Step(s, a));
    Unrolled(s, a, more);
    more := [a] + more;
  }

  lemma InBounds(s: State)
    requires Inv(s)
    ensures s.engine.next <= |s.plan|
  {}

  /** A stuck engine stays stuck, whatever happens. */
  lemma {:induction false} Stranded(s: State, more: seq<Act>)
    requires Stuck(s)
    ensures Run(s, more).engine == s.engine
    decreases |more|
  {
    if more != [] {
      assert s.queue + [] == s.queue;
      assert Step(s, more[0]) == s;
      Stranded(s, more[1..]);
    }
  }

  /** From wherever it stands a flash can come to its end, the caller gone and the engine's thread
      gone, without a further interrupt, exactly if its engine is not stuck. */
  lemma NeitherWaitsForEver(plan: seq<Op>, acts: seq<Act>)
    ensures var s := Run(Init(plan), acts);
            (exists more: seq<Act> :: Over(Run(s, more)) && Undisturbed(more)) <==> !Stuck(s)
  {
    hide Inv, Run;
    var s := Run(Init(plan), acts);
    FromTheStart(plan, acts);
    if Stuck(s) {
      forall more ensures !Over(Run(s, more)) { Stranded(s, more); }
    } else {
      hide Stuck, Over;
      var more := ToTheEnd(s);
    }
  }

  // ---- every schedule -------------------------------------------------------------------------

  /** Where `n` acts of an endless schedule lead. */
  function After(s: State, schedule: nat -> Act, n: nat): State {
    if n == 0 then s else Step(After(s, schedule, n - 1), schedule(n - 1))
  }

  /** The engine's thread acts again, and the caller's. */
  ghost predicate WorksAgain(schedule: nat -> Act, i: nat) { exists j: nat :: j >= i && schedule(j).Work? }

  ghost predicate GoesAgain(schedule: nat -> Act, i: nat) { exists j: nat :: j >= i && schedule(j).Go? }

  /** Neither thread is passed over for ever, and no interrupt comes. */
  ghost predicate FairAndUndisturbed(schedule: nat -> Act) {
    && (forall i: nat :: WorksAgain(schedule, i) && GoesAgain(schedule, i))
    && (forall i: nat :: !schedule(i).Interrupt?)
  }

  lemma {:induction false} AfterKeeps(s: State, schedule: nat -> Act, n: nat)
    requires Inv(s)
    ensures Inv(After(s, schedule, n))
  {
    hide Inv, Step;
    if n > 0 {
      AfterKeeps(s, schedule, n - 1);
      StepKeeps(After(s, schedule, n - 1), schedule(n - 1));
    }
  }

  /** Nothing but the cancel flag has changed. */
  predicate SameButCancel(s: State, s': State) { s' == s.(cancel := s'.cancel) }

  /** What is left to do, where the engine is within its plan: it always is. */
  function ToDo(s: State): nat { if s.engine.next <= |s.plan| then Remaining(s) else 0 }

  /** So the same thread can go on, and as much is left to do. */
  lemma CanStill(s: State, s': State)
    requires SameButCancel(s, s')
    ensures EngineCan(s') == EngineCan(s) && ToDo(s') == ToDo(s)
    ensures Over(s') == Over(s) && Stuck(s') == Stuck(s)
  {}

  /** An act of the thread that can go on leaves less to do. */
  lemma GoesDown(s: State, a: Act)
    requires Inv(s) && !Stuck(s) && !Over(s) && (if EngineCan(s) then a.Work? else a.Go?)
    ensures ToDo(Step(s, a)) < ToDo(s)
  {
    Started(s);
    if EngineCan(s) {
      EngineDown(s.plan, s.engine, s.cancel, Free(s), a.fails);
      hide Working, EngineRank, EngineOk, CallerOk, Sayings;
    } else {
      CallerNotDone(s);
      assert !Idle(s);
      GoDown(s, a.raises);
      hide CallerStep, EngineRank, EngineOk, CallerOk;
    }
  }

  /** An act changes nothing but the cancel flag, or leaves less to do. */
  lemma SameOrLess(s: State, a: Act)
    requires Inv(s)
    ensures SameButCancel(s, Step(s, a)) || ToDo(Step(s, a)) < ToDo(s)
  {
    NothingForNothing(s, a);
    Started(s);
    hide Step, Remaining, Inv;
  }

  /** Up to the j-th act less is left to do, or all is as it was, but for the cancel flag. */
  lemma {:induction false} MeanwhileSameOrLess(s: State, schedule: nat -> Act, i: nat, j: nat) returns (k: nat)
    requires Inv(s) && i <= j
    ensures i <= k <= j
    ensures ToDo(After(s, schedule, k)) < ToDo(After(s, schedule, i))
         || (k == j && SameButCancel(After(s, schedule, i), After(s, schedule, j)))
  {
    hide Inv, Step, ToDo;
    k := i;
    if i < j {
      k := MeanwhileSameOrLess(s, schedule, i, j - 1);
      if k == j - 1 && SameButCancel(After(s, schedule, i), After(s, schedule, k)) {
        AfterKeeps(s, schedule, k);
        SameOrLess(After(s, schedule, k), schedule(k));
        CanStill(After(s, schedule, i), After(s, schedule, k));
        k := j;
      }
    }
  }

  /** Sooner or later less is left to do. */
  lemma LessLater(s: State, schedule: nat -> Act, i: nat) returns (k: nat)
    requires Inv(s) && FairAndUndisturbed(schedule)
    requires !Stuck(After(s, schedule, i)) && !Over(After(s, schedule, i))
    ensures k > i && ToDo(After(s, schedule, k)) < ToDo(After(s, schedule, i))
  {
    hide Inv, Step, ToDo, EngineCan, Stuck, Over;
    var s1 := After(s, schedule, i);
    assert WorksAgain(schedule, i) && GoesAgain(schedule, i);
    var j: nat;
    if EngineCan(s1) {
      j :| j >= i && schedule(j).Work?;
    } else {
      j :| j >= i && schedule(j).Go?;
    }
    k := MeanwhileSameOrLess(s, schedule, i, j);
    if !(ToDo(After(s, schedule, k)) < ToDo(s1)) {
      AfterKeeps(s, schedule, j);
      CanStill(s1, After(s, schedule, j));
      GoesDown(After(s, schedule, j), schedule(j));
      k := j + 1;
    }
  }

  /** So every such schedule ends, or gets the engine stuck. */
  lemma {:induction false} EndsOrSticks(s: State, schedule: nat -> Act, i: nat) returns (n: nat)
    requires Inv(s) && FairAndUndisturbed(schedule)
    ensures n >= i && (Over(After(s, schedule, n)) || Stuck(After(s, schedule, n)))
    decreases ToDo(After(s, schedule, i))
  {
    hide Inv, FairAndUndisturbed, ToDo, Over, Stuck, After;
    n := i;
    if !Over(After(s, schedule, i)) && !Stuck(After(s, schedule, i)) {
      var k := LessLater(s, schedule, i);
      n := EndsOrSticks(s, schedule, k);
    }
  }

  // ---- when an engine can get stuck -----------------------------------------------------------

  /** A progress call comes before the engine would stop for its cancel flag. */
  predicate CallAhead(plan: seq<Op>, next: nat, cancel: bool) {
    exists k :: next <= k < |plan| && plan[k] == Progress && (cancel ==> forall j :: next <= j < k ==> plan[j] != Block)
  }

  /** Its caller has left without releasing it, and it is in a progress call or has one ahead. */
  predicate MayStick(s: State) {
    && s.caller.Left? && !s.released && Present(s.engine.at) && s.engine.at != Ending
    && (Stuck(s) || CallAhead(s.plan, s.engine.next, s.cancel))
  }

  lemma CallAheadNext(plan: seq<Op>, next: nat, cancel: bool)
    requires next < |plan| && plan[next] != Progress && !(cancel && plan[next] == Block)
    requires CallAhead(plan, next + 1, cancel)
    ensures CallAhead(plan, next, cancel)
  {
    var k :| next + 1 <= k < |plan| && plan[k] == Progress
      && (cancel ==> forall j :: next + 1 <= j < k ==> plan[j] != Block);
    assert cancel ==> forall j :: next <= j < k ==> plan[j] != Block;
  }

  lemma CallAheadHere(plan: seq<Op>, next: nat, cancel: bool)
    requires next < |plan|
    ensures plan[next] == Progress ==> CallAhead(plan, next, cancel)
  {}

  lemma EngineMeetsNone(plan: seq<Op>, e: Engine, cancel: bool, free: bool, fails: bool)
    requires !CallAhead(plan, e.next, cancel) && (e.at.Waiting? ==> free)
    ensures var e' := Working(plan, e, cancel, free, fails).0;
            !e'.at.Waiting? && (e'.at == Ending || e'.at == Gone || !CallAhead(plan, e'.next, cancel))
  {
    if e.at == Running && e.next < |plan| && !fails {
      CallAheadHere(plan, e.next, cancel);
      if !(cancel && plan[e.next] == Block) && CallAhead(plan, e.next + 1, cancel) {
        CallAheadNext(plan, e.next, cancel);
      }
    }
    hide CallAhead;
    match e.at { case _ => }
  }

  lemma StillNotSticking(s: State, a: Act)
    requires Inv(s) && !MayStick(s) && !a.Interrupt?
    ensures !MayStick(Step(s, a))
  {
    if s.caller.Left? && a.Work? && !s.released && Present(s.engine.at) && s.engine.at != Ending {
      EngineMeetsNone(s.plan, s.engine, s.cancel, Free(s), a.fails);
    }
    hide CallAhead, Sayings, Ops, EngineOk, Told, ToldSome;
  }

  lemma {:induction false} NeverSticks(s: State, more: seq<Act>)
    requires Inv(s) && !MayStick(s) && Undisturbed(more)
    ensures !Stuck(Run(s, more))
    decreases |more|
  {
    if more != [] {
      hide MayStick, Inv, Step, Stuck;
      StillNotSticking(s, more[0]);
      StepKeeps(s, more[0]);
      NeverSticks(Step(s, more[0]), more[1..]);
    }
  }

  lemma {:induction false} ToStuck(s: State, k: nat) returns (more: seq<Act>)
    requires Inv(s) && s.caller.Left? && !s.released && Present(s.engine.at) && s.engine.at != Ending && !Stuck(s)
    requires s.engine.next <= k < |s.plan| && s.plan[k] == Progress
    requires s.cancel ==> forall j :: s.engine.next <= j < k ==> s.plan[j] != Block
    ensures Stuck(Run(s, more)) && Undisturbed(more)
    decreases 2 * (k - s.engine.next) + if s.engine.at == Running then 0 else if s.engine.at == Forked then 2 else 1
  {
    var s' := Step(s, Work(false));
    StepKeeps(s, Work(false));
    hide Sayings, Ops, Told, ToldSome;
    more := [];
    if !Stuck(s') { more := ToStuck(s', k); }
    hide Step;
    Unrolled(s, Work(false), more);
    more := [Work(false)] + more;
  }

  /** Without a further interrupt the engine can get stuck exactly if its caller left without releasing
      it and a progress call is under way or ahead; otherwise every schedule ends, step by step. */
  lemma SticksIff(plan: seq<Op>, acts: seq<Act>)
    ensures var s := Run(Init(plan), acts);
            (exists more: seq<Act> :: Stuck(Run(s, more)) && Undisturbed(more)) <==> MayStick(s)
  {
    hide Inv;
    var s := Run(Init(plan), acts);
    FromTheStart(plan, acts);
    if MayStick(s) {
      if Stuck(s) {
        var none: seq<Act> := [];
        assert Stuck(Run(s, none)) && Undisturbed(none);
      } else {
        var k :| s.engine.next <= k < |s.plan| && s.plan[k] == Progress
          && (s.cancel ==> forall j :: s.engine.next <= j < k ==> s.plan[j] != Block);
        var more := ToStuck(s, k);
      }
    } else {
      hide MayStick, Stuck, Run;
      forall more: seq<Act> | Undisturbed(more) ensures !Stuck(Run(s, more)) {
        NeverSticks(s, more);
      }
    }
  }

  lemma {:induction false} NeverSticksAfter(s: State, schedule: nat -> Act, n: nat)
    requires Inv(s) && !MayStick(s) && forall i: nat :: !schedule(i).Interrupt?
    ensures !MayStick(After(s, schedule, n)) && !Stuck(After(s, schedule, n)) && Inv(After(s, schedule, n))
  {
    if n > 0 {
      hide MayStick, Inv, Step, Stuck;
      NeverSticksAfter(s, schedule, n - 1);
      StillNotSticking(After(s, schedule, n - 1), schedule(n - 1));
      StepKeeps(After(s, schedule, n - 1), schedule(n - 1));
    }
    hide After, Step, Inv, CallAhead;
    NotMaySo(After(s, schedule, n));
  }

  lemma NotMaySo(s: State)
    ensures Stuck(s) ==> MayStick(s)
  {}

  /** Wherever a flash stands, every schedule from there on without an interrupt, in which both threads keep
      acting, brings it to its end, unless its engine can get stuck. Until an interrupt escapes it cannot. */
  lemma EveryScheduleEnds(plan: seq<Op>, acts: seq<Act>, schedule: nat -> Act)
    requires FairAndUndisturbed(schedule)
    ensures !MayStick(Run(Init(plan), acts)) ==> exists n: nat :: Over(After(Run(Init(plan), acts), schedule, n))
    ensures !Run(Init(plan), acts).escaped ==> !MayStick(Run(Init(plan), acts))
  {
    hide Run, After, Over, Stuck, Step;
    var s := Run(Init(plan), acts);
    FromTheStart(plan, acts);
    assert !s.escaped ==> !MayStick(s) by { hide EngineOk, Sayings, CallAhead; }
    if !MayStick(s) {
      var n := EndsOrSticks(s, schedule, 0);
      NeverSticksAfter(s, schedule, n);
    }
  }

  // ---- an interrupt inside start() ------------------------------------------------------------

  /** A caller that leaves by itself leaves an engine behind exactly if its thread has not marked itself
      started: the loop that would cancel it takes it for ended. */
  lemma LeavesItBehindIff(plan: seq<Op>, acts: seq<Act>, raises: bool)
    ensures var s := Run(Init(plan), acts);
            !s.caller.Left? && Step(s, Go(raises)).caller.Left? ==>
              (Present(Step(s, Go(raises)).engine.at) <==> s.engine.at == Forked)
  {
    hide Run, EngineOk, Sayings, Ops;
    FromTheStart(plan, acts);
  }

  /** An engine released and never cancelled goes through its whole plan. */
  lemma {:induction false} FlashesOn(s: State) returns (more: seq<Act>)
    requires Inv(s) && s.caller.Left? && s.released && !s.cancel && Present(s.engine.at)
    requires s.engine.at == Ending ==> !s.engine.stopped
    ensures var e := Run(s, more).engine; e.at == Gone && !e.stopped && e.next == |s.plan|
    decreases ToDo(s)
  {
    var s' := Step(s, Work(false));
    StepKeeps(s, Work(false));
    WorkDown(s, false);
    more := [];
    hide Sayings, Ops, EngineRank, CallerRank;
    if s'.engine.at == Gone {
      assert s'.engine.next == |s.plan|;
    } else {
      more := FlashesOn(s');
    }
    hide Step, Inv;
    Unrolled(s, Work(false), more);
    more := [Work(false)] + more;
  }

  /** So Ctrl-C inside start() can leave a flash to run through, for any plan: no second interrupt, no cancel. */
  lemma InterruptedStartFlashesOn(plan: seq<Op>)
    ensures exists acts, more :: var s, e := Run(Init(plan), acts), Run(Run(Init(plan), acts), more).engine;
              && s.caller.Left? && !s.escaped && !s.cancel
              && e.at == Gone && !e.stopped && e.blocks == |plan| - |Sayings(plan, |plan|)|
  {
    var ctrlC, go := Interrupt(true), Go(false);
    var acts := [ctrlC] + ([go] + ([go] + []));
    ThenRuns(Init(plan), ctrlC, go, go, []);
    var s := Then(Init(plan), ctrlC, go, go);
    assert s == Init(plan).(engine := Engine(Forked, 0, 0, false), caller := Left(true), released := true);
    assert Run(s, []) == s;
    FromTheStart(plan, acts);
    hide Step, Then, Working;
    var more := FlashesOn(s);
    RunKeeps(s, more);
    hide Run, Sayings;
    assert Run(Run(Init(plan), acts), more).engine.blocks == |plan| - |Sayings(plan, |plan|)|;
  }

  /** A second interrupt before the release strands the engine in its callback. */
  lemma EscapeStrandsTheEngine()
    ensures exists plan, acts :: var s := Run(Init(plan), acts);
              && s.escaped && s.caller.Left? && s.engine.at.Waiting?
              && forall more :: Run(s, more).engine == s.engine
  {
    var plan := [Progress];
    var go, work, ctrlC := Go(false), Work(false), Interrupt(true);
    var leaving := [go] + ([ctrlC] + ([ctrlC] + []));
    var acts := [go] + ([work] + ([work] + leaving));
    FirstCall(plan);
    ThenRuns(Init(plan), go, work, work, leaving);
    var called := Then(Init(plan), go, work, work);
    ThenRuns(called, go, ctrlC, ctrlC, []);
    var s := Then(called, go, ctrlC, ctrlC);
    assert Step(called, go) == called.(caller := Taken(0), queue := []);
    assert Run(s, []) == s && s.escaped && Stuck(s);
    hide *;
    forall more ensures Run(s, more).engine == s.engine { Stranded(s, more); }
    assert Run(Init(plan), acts) == s;
  }
}
