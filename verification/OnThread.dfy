/**
 A native call on a thread of its own, its caller interruptible at any moment: three flags between
 two threads. One act is one read or one write of a flag, or one call; any list of acts is an
 interleaving, and an act its thread is not ready for leaves everything as it is.
 */
module OnThread {
  import opened Basics

  /** Where the worker stands. `Asking`: about to look whether it was given up; `Inside`: in the call. */
  datatype Worker = Unborn | Spawned | Asking | Attaching | Inside | Finishing | Gone

  datatype Box = Empty | Answer | Error

  datatype Leave = WithAnswer | WithError | WithNothing | Raising(which: nat)

  /** Where the caller stands. From `Caught` on it carries what it was interrupted with; the loop's
      condition reads `done`, then `began`, then the clock, and its body is guarded against interrupts. */
  datatype Caller =
    | Starting
    | Waiting
    | Reading
    | Caught
    | TestDone
    | TestBegan
    | TestClock
    | Body
    | Hooking
    | Resting
    | Left(how: Leave)

  /** The worker's thread, and what it leaves for the caller. */
  datatype Thread = Thread(at: Worker, began: bool, done: bool, box: Box, calls: nat, returned: nat)

  datatype State = State(thread: Thread, caller: Caller, abandoned: bool, hook: bool, first: Option<nat>,
                         escaped: bool, asked: nat)

  /** `Work(fails)`: the worker's next step, its call raising or not. `Go(late, raises)`: the caller's,
      the clock past the second it gives a thread to begin, the hook raising. `Interrupt(which,
      spawned)`: an exception lands in the caller; in start(), the thread may be there or not. */
  datatype Act = Work(fails: bool) | Go(late: bool, raises: Option<nat>) | Interrupt(which: nat, spawned: bool)

  const NOT_BORN := Thread(Unborn, false, false, Empty, 0, 0)

  const BORN := NOT_BORN.(at := Spawned)

  function Init(hook: bool): State { State(NOT_BORN, Starting, false, hook, None, false, 0) }

  function WorkerStep(t: Thread, abandoned: bool, fails: bool): Thread {
    match t.at
    case Unborn => t
    case Spawned => t.(at := Asking, began := true)
    case Asking => t.(at := if abandoned then Finishing else Attaching)
    case Attaching => if fails then t.(at := Finishing, box := Error) else t.(at := Inside, calls := t.calls + 1)
    case Inside => t.(at := Finishing, box := if fails then Error else Answer, returned := t.returned + 1)
    case Finishing => t.(at := Gone, done := true)
    case Gone => t
  }

  /** The answer or the error the worker left; a box with neither has no answer to give. */
  function Outcome(box: Box): Leave {
    match box { case Error => WithError case Answer => WithAnswer case Empty => WithNothing }
  }

  /** Raises what it was first interrupted with. */
  function GiveUp(s: State): State {
    s.(caller := Left(Raising(if s.first.Some? then s.first.value else 0)))
  }

  function CallerStep(s: State, late: bool, raises: Option<nat>): State {
    match s.caller
    case Starting => s.(thread := BORN, caller := Waiting)
    case Waiting => if s.thread.done then s.(caller := Reading) else s
    case Reading => s.(caller := Left(Outcome(s.thread.box)))
    case Caught => s.(abandoned := true, caller := TestDone)
    case TestDone => if !s.hook || s.thread.done then GiveUp(s) else s.(caller := TestBegan)
    case TestBegan => if s.thread.began then s.(caller := Body) else s.(caller := TestClock)
    case TestClock => if late then GiveUp(s) else s.(caller := Body)
    case Body => if s.thread.began then s.(caller := Hooking, asked := s.asked + 1) else s.(caller := Resting)
    case Hooking =>
      if raises.Some? then s.(caller := Left(Raising(raises.value)), escaped := true) else s.(caller := Resting)
    case Resting => s.(caller := TestDone)
    case Left(_) => s
  }

  /** Held back in the loop's guarded body; anywhere else after the first it ends the wait for the call. */
  function Interrupted(s: State, which: nat, spawned: bool): State {
    match s.caller
    case Starting => s.(thread := if spawned then BORN else NOT_BORN, caller := Caught, first := Some(which))
    case Waiting => s.(caller := Caught, first := Some(which))
    case Reading => s.(caller := Left(Raising(which)), first := Some(which))
    case Body => s.(caller := TestDone)
    case Hooking => s.(caller := TestDone)
    case Resting => s.(caller := TestDone)
    case Left(_) => s
    case _ => s.(caller := Left(Raising(which)), escaped := true)
  }

  function Step(s: State, a: Act): State {
    match a
    case Work(fails) => s.(thread := WorkerStep(s.thread, s.abandoned, fails))
    case Go(late, raises) => CallerStep(s, late, raises)
    case Interrupt(which, spawned) => Interrupted(s, which, spawned)
  }

  function Run(s: State, acts: seq<Act>): State
    decreases |acts|
  {
    if acts == [] then s else Run(Step(s, acts[0]), acts[1..])
  }

  /** The call is being made, or will be if the worker is let run. */
  predicate MayCall(t: Thread, abandoned: bool) {
    t.at == Attaching || t.at == Inside || (!abandoned && (t.at == Spawned || t.at == Asking))
  }

  /** The call was made and returned, or given up, or failed before it could be made. */
  predicate Settled(t: Thread, abandoned: bool) {
    && t.calls <= 1 && t.returned == t.calls && (t.box == Answer ==> t.returned == 1)
    && (t.box == Empty ==> abandoned)
  }

  predicate NotCalled(t: Thread) { t.calls == 0 && t.returned == 0 && t.box == Empty && !t.done }

  predicate ThreadOk(t: Thread, abandoned: bool) {
    match t.at
    case Unborn => !t.began && NotCalled(t)
    case Spawned => !t.began && NotCalled(t)
    case Asking => t.began && NotCalled(t)
    case Attaching => t.began && NotCalled(t)
    case Inside => t.began && !t.done && t.calls == 1 && t.returned == 0 && t.box == Empty
    case Finishing => t.began && !t.done && Settled(t, abandoned)
    case Gone => t.began && t.done && Settled(t, abandoned)
  }

  /** Nothing interrupted the caller yet. */
  predicate Undisturbed(s: State) { !s.abandoned && s.first.None? && !s.escaped && s.asked == 0 }

  /** It gave the call up, and is waiting until nothing is left of it. */
  predicate GivenUp(s: State) { s.abandoned && s.first.Some? && !s.escaped && (s.asked > 0 ==> s.thread.began) }

  predicate CallerOk(s: State) {
    match s.caller
    case Starting => Undisturbed(s) && s.thread == NOT_BORN
    case Waiting => Undisturbed(s)
    case Reading => Undisturbed(s) && s.thread.done
    case Caught => !s.abandoned && s.first.Some? && !s.escaped && s.asked == 0
    case TestDone => GivenUp(s)
    case TestBegan => GivenUp(s) && s.hook
    case TestClock => GivenUp(s) && s.hook && !MayCall(s.thread, s.abandoned)
    case Body => GivenUp(s) && s.hook
    case Hooking => GivenUp(s) && s.hook && s.thread.began
    case Resting => GivenUp(s) && s.hook
    case Left(how) =>
      && (s.asked > 0 ==> s.thread.began && s.first.Some?)
      && (s.first.None? ==> s.thread.done && Undisturbed(s) && how == Outcome(s.thread.box))
      && (s.first.Some? && !s.escaped ==> how == Raising(s.first.value) && (s.hook ==> !MayCall(s.thread, s.abandoned)))
      && (s.first.Some? ==> how.Raising?)
  }

  predicate Inv(s: State) { ThreadOk(s.thread, s.abandoned) && CallerOk(s) }

  /** A worker's step keeps its own account, and only sets flags. */
  lemma WorkerKeeps(t: Thread, abandoned: bool, fails: bool)
    requires ThreadOk(t, abandoned)
    ensures var t' := WorkerStep(t, abandoned, fails);
            && ThreadOk(t', abandoned) && (t.done ==> t' == t) && (t.began ==> t'.began)
            && (!MayCall(t, abandoned) && (abandoned || t.done) ==> !MayCall(t', abandoned) && t'.calls == t.calls)
  {
    match t.at { case _ => }
  }

  lemma ThreadFacts(t: Thread, abandoned: bool)
    requires ThreadOk(t, abandoned)
    ensures t.done ==> !MayCall(t, abandoned) && t.at == Gone && Settled(t, abandoned)
    ensures !t.began && abandoned ==> !MayCall(t, abandoned)
    ensures t.returned <= t.calls <= 1
  {}

  lemma Abandoned(t: Thread)
    requires ThreadOk(t, false)
    ensures ThreadOk(t, true) && (MayCall(t, true) ==> MayCall(t, false))
  {}

  lemma Births()
    ensures ThreadOk(NOT_BORN, false) && ThreadOk(BORN, false)
  {}

  lemma WorkKeeps(s: State, fails: bool)
    requires Inv(s)
    ensures Inv(Step(s, Work(fails)))
  {
    WorkerKeeps(s.thread, s.abandoned, fails);
    ThreadFacts(s.thread, s.abandoned);
    ghost var t' := WorkerStep(s.thread, s.abandoned, fails);
    hide ThreadOk, WorkerStep, MayCall, Settled;
  }

  lemma GoKeeps(s: State, late: bool, raises: Option<nat>)
    requires Inv(s)
    ensures Inv(Step(s, Go(late, raises)))
  {
    hide ThreadOk, MayCall, Settled;
    ThreadFacts(s.thread, s.abandoned);
    Births();
    if s.caller.Caught? { Abandoned(s.thread); }
  }

  lemma InterruptKeeps(s: State, which: nat, spawned: bool)
    requires Inv(s)
    ensures Inv(Step(s, Interrupt(which, spawned)))
  {
    hide ThreadOk, MayCall, Settled;
    ThreadFacts(s.thread, s.abandoned);
    Births();
  }

  lemma StepKeeps(s: State, a: Act)
    requires Inv(s)
    ensures Inv(Step(s, a)) && Step(s, a).hook == s.hook
  {
    hide Inv;
    match a {
      case Work(fails) => WorkKeeps(s, fails);
      case Go(late, raises) => GoKeeps(s, late, raises);
      case Interrupt(which, spawned) => InterruptKeeps(s, which, spawned);
    }
  }

  lemma {:induction false} RunKeeps(s: State, acts: seq<Act>)
    requires Inv(s)
    ensures Inv(Run(s, acts)) && Run(s, acts).hook == s.hook
    decreases |acts|
  {
    hide Inv, Step;
    if acts != [] {
      StepKeeps(s, acts[0]);
      RunKeeps(Step(s, acts[0]), acts[1..]);
    }
  }

  /** Once the caller has left, nothing it does reaches the worker. */
  lemma AfterLeaving(s: State, a: Act)
    requires Inv(s) && s.caller.Left?
    ensures Step(s, a).caller == s.caller && Step(s, a).abandoned == s.abandoned
    ensures !MayCall(s.thread, s.abandoned) ==>
              !MayCall(Step(s, a).thread, s.abandoned) && Step(s, a).thread.calls == s.thread.calls
  {}

  lemma {:induction false} NoCallLater(s: State, more: seq<Act>)
    requires Inv(s) && s.caller.Left? && !MayCall(s.thread, s.abandoned)
    ensures Run(s, more).thread.calls == s.thread.calls && Run(s, more).thread.at != Inside
    decreases |more|
  {
    hide Inv, Step;
    if more != [] {
      AfterLeaving(s, more[0]);
      StepKeeps(s, more[0]);
      NoCallLater(Step(s, more[0]), more[1..]);
    }
  }

  lemma Next(s: State)
    requires MayCall(s.thread, s.abandoned) && s.thread.at != Inside
    ensures MayCall(Step(s, Work(false)).thread, s.abandoned) && Step(s, Work(false)).abandoned == s.abandoned
    ensures s.thread.at == Asking ==> Step(s, Work(false)).thread.at == Attaching
    ensures s.thread.at == Spawned ==> Step(s, Work(false)).thread.at == Asking
    ensures s.thread.at == Attaching ==> Step(s, Work(false)).thread.at == Inside
  {}

  function ToGo(w: Worker): nat { match w { case Spawned => 3 case Asking => 2 case Attaching => 1 case _ => 0 } }

  /** The worker alone gets there. */
  lemma {:induction false} ToTheCall(s: State) returns (more: seq<Act>)
    requires MayCall(s.thread, s.abandoned)
    ensures Run(s, more).thread.at == Inside
    decreases ToGo(s.thread.at)
  {
    hide Step;
    if s.thread.at == Inside { return []; }
    Next(s);
    more := ToTheCall(Step(s, Work(false)));
    Unrolled(s, Work(false), more);
    more := [Work(false)] + more;
  }

  lemma Unrolled(s: State, a: Act, acts: seq<Act>)
    ensures Run(s, [a] + acts) == Run(Step(s, a), acts)
  {
    assert ([a] + acts)[1..] == acts;
  }

  // ---- over every interleaving ----------------------------------------------------------------

  lemma FromTheStart(hook: bool, acts: seq<Act>)
    ensures Inv(Run(Init(hook), acts)) && Run(Init(hook), acts).hook == hook
  {
    RunKeeps(Init(hook), acts);
  }

  lemma CalledAtMostOnce(hook: bool, acts: seq<Act>)
    ensures Run(Init(hook), acts).thread.returned <= Run(Init(hook), acts).thread.calls <= 1
  {
    FromTheStart(hook, acts);
  }

  /** The hook is asked only once the worker began, and only of an interrupted caller. */
  lemma HookAskedOfABegunWorker(hook: bool, acts: seq<Act>)
    ensures var s := Run(Init(hook), acts);
            s.asked > 0 ==> s.thread.began && s.first.Some?
  {
    FromTheStart(hook, acts);
  }

  /** Whether the call returned an answer, in acts from `s` on; whether it, or the attaching before it, raised. */
  predicate Answers(s: State, acts: seq<Act>)
    decreases |acts|
  {
    acts != [] && ((acts[0] == Work(false) && s.thread.at == Inside) || Answers(Step(s, acts[0]), acts[1..]))
  }

  predicate Raises(s: State, acts: seq<Act>)
    decreases |acts|
  {
    acts != [] && ((acts[0] == Work(true) && (s.thread.at == Inside || s.thread.at == Attaching))
                   || Raises(Step(s, acts[0]), acts[1..]))
  }

  /** The first exception that lands in the caller before it has left. */
  function FirstOf(s: State, acts: seq<Act>): Option<nat>
    decreases |acts|
  {
    if acts == [] then None
    else if acts[0].Interrupt? && !s.caller.Left? then Some(acts[0].which)
    else FirstOf(Step(s, acts[0]), acts[1..])
  }

  lemma BoxNext(s: State, a: Act)
    requires Inv(s)
    ensures Step(s, a).thread.box == Answer <==>
              s.thread.box == Answer || (a == Work(false) && s.thread.at == Inside)
    ensures Step(s, a).thread.box == Error <==>
              s.thread.box == Error || (a == Work(true) && (s.thread.at == Inside || s.thread.at == Attaching))
  {}

  lemma {:induction false} BoxRun(s: State, acts: seq<Act>)
    requires Inv(s)
    ensures Run(s, acts).thread.box == Answer <==> s.thread.box == Answer || Answers(s, acts)
    ensures Run(s, acts).thread.box == Error <==> s.thread.box == Error || Raises(s, acts)
    decreases |acts|
  {
    hide Inv, Step;
    if acts != [] {
      BoxNext(s, acts[0]);
      StepKeeps(s, acts[0]);
      BoxRun(Step(s, acts[0]), acts[1..]);
    }
  }

  /** What it was first interrupted with it keeps. */
  lemma {:induction false} FirstRun(s: State, acts: seq<Act>)
    requires Inv(s)
    ensures Run(s, acts).first == if s.first.Some? then s.first else FirstOf(s, acts)
    decreases |acts|
  {
    if acts != [] {
      FirstNext(s, acts[0]);
      StepKeeps(s, acts[0]);
      hide Inv, Step;
      FirstRun(Step(s, acts[0]), acts[1..]);
    }
  }

  lemma FirstNext(s: State, a: Act)
    requires Inv(s)
    ensures Step(s, a).first == if s.first.None? && a.Interrupt? && !s.caller.Left? then Some(a.which) else s.first
  {
    hide ThreadOk, MayCall, Settled;
  }

  lemma FirstFromTheStart(hook: bool, acts: seq<Act>)
    ensures Run(Init(hook), acts).first == FirstOf(Init(hook), acts)
  {
    hide Run, Step;
    FirstRun(Init(hook), acts);
  }

  /** A caller nothing interrupted leaves with the answer exactly if the call returned one, and with the error
      exactly if it or the attaching raised; one of them did, and the thread is done. */
  lemma UninterruptedFindsTheOutcome(hook: bool, acts: seq<Act>)
    ensures var s := Run(Init(hook), acts);
            s.caller.Left? && FirstOf(Init(hook), acts).None? ==>
              && s.thread.done && s.caller.how == (if Answers(Init(hook), acts) then WithAnswer else WithError)
              && Answers(Init(hook), acts) == !Raises(Init(hook), acts)
              && (Answers(Init(hook), acts) ==> s.thread.calls == s.thread.returned == 1)
  {
    FromTheStart(hook, acts);
    FirstFromTheStart(hook, acts);
    hide Run, Step, Answers, Raises, FirstOf;
    BoxRun(Init(hook), acts);
  }

  /** An interrupted one leaves raising: what it was first interrupted with, unless another escaped. */
  lemma InterruptedRaises(hook: bool, acts: seq<Act>)
    ensures var s := Run(Init(hook), acts);
            s.caller.Left? && FirstOf(Init(hook), acts).Some? ==>
              s.caller.how.Raising? && (!s.escaped ==> s.caller.how.which == FirstOf(Init(hook), acts).value)
  {
    FromTheStart(hook, acts);
    FirstFromTheStart(hook, acts);
    hide Run, Step, FirstOf;
  }

  /** What escapes: an exception that lands between the loop's guarded bodies, once the first was caught; or one the
      hook raises by itself. */
  lemma EscapesIff(hook: bool, acts: seq<Act>, a: Act)
    ensures var s := Run(Init(hook), acts);
            !s.escaped ==>
              (Step(s, a).escaped <==>
               || (a.Interrupt? && s.caller in {Caught, TestDone, TestBegan, TestClock})
               || (a.Go? && s.caller == Hooking && a.raises.Some?))
  {
    hide Run;
    FromTheStart(hook, acts);
  }

  /** A caller with a hook that gives up does so because the call is done, or a second went by and its thread, looked
      at just before, had not begun. */
  lemma GivesUpOnlyWhen(acts: seq<Act>, a: Act)
    ensures var s, s' := Run(Init(true), acts), Step(Run(Init(true), acts), a);
            && (s.first.Some? && !s.caller.Left? && s'.caller.Left? && !s'.escaped ==>
                s.thread.done || (s.caller == TestClock && a.Go? && a.late))
            && (s.caller != TestClock && s'.caller == TestClock ==> !s.thread.began)
            && (s.caller == TestClock && a.Go? ==> (s'.caller.Left? <==> a.late))
  {
    hide Run, MayCall, Settled;
    FromTheStart(true, acts);
  }

  /** An interrupt inside start() may find the thread there, or not. */
  lemma StartMayHaveForked(hook: bool, which: nat)
    ensures Step(Init(hook), Interrupt(which, true)).thread.at == Spawned
    ensures Step(Init(hook), Interrupt(which, false)).thread.at == Unborn
  {}

  // ---- the hook -------------------------------------------------------------------------------

  /** The worker's steps. */
  predicate Works(acts: seq<Act>) { forall i :: 0 <= i < |acts| ==> acts[i].Work? }

  lemma {:induction false} WorksOnly(s: State, acts: seq<Act>)
    requires Works(acts)
    ensures var s' := Run(s, acts);
            && s' == s.(thread := s'.thread) && (s.thread.began ==> s'.thread.began)
    decreases |acts|
  {
    if acts != [] {
      WorksOnly(Step(s, acts[0]), acts[1..]);
    }
  }

  /** From wherever it stands in its loop with the thread begun and not done, a caller with a hook asks it in this
      round, whatever the worker does meanwhile, and then goes round again. */
  lemma EachRoundAsks(s: State, w1: seq<Act>, w2: seq<Act>, late: bool, raises: Option<nat>)
    requires s.caller == TestDone && s.hook && s.thread.began && !s.thread.done && Works(w1) && Works(w2)
    ensures var s1 := Run(Step(s, Go(late, raises)), w1);
            var s2 := Run(Step(s1, Go(late, raises)), w2);
            var s3 := Step(s2, Go(late, raises));
            && s3.asked == s.asked + 1 && s3.caller == Hooking
            && Step(Step(s3, Go(late, None)), Go(late, None)).caller == TestDone
  {
    WorksOnly(Step(s, Go(late, raises)), w1);
    var s1 := Run(Step(s, Go(late, raises)), w1);
    WorksOnly(Step(s1, Go(late, raises)), w2);
  }

  /** Interrupted, and with a hook: when it leaves with what it was first interrupted with, its
      further interrupts held back, the call has returned or is never made. */
  lemma LeavesNoCallBehind(acts: seq<Act>, more: seq<Act>)
    ensures var s := Run(Init(true), acts);
            s.caller.Left? && s.first.Some? && !s.escaped ==>
              && s.caller.how == Raising(s.first.value)
              && Run(s, more).thread.calls == s.thread.calls && Run(s, more).thread.at != Inside
  {
    hide Inv;
    var s := Run(Init(true), acts);
    FromTheStart(true, acts);
    if s.caller.Left? && s.first.Some? && !s.escaped {
      LeftClean(s);
      NoCallLater(s, more);
    }
  }

  /** Whether a caller that has left has a call under way or still to come, exactly; and then it was
      interrupted, and had no hook or did not wait for it. */
  lemma CallOutstanding(hook: bool, acts: seq<Act>)
    ensures var s := Run(Init(hook), acts);
            s.caller.Left? ==>
              && (MayCall(s.thread, s.abandoned) <==> exists more :: Run(s, more).thread.at == Inside)
              && (MayCall(s.thread, s.abandoned) ==> s.first.Some? && (s.escaped || !hook))
  {
    hide Inv;
    var s := Run(Init(hook), acts);
    FromTheStart(hook, acts);
    if s.caller.Left? {
      LeftInterrupted(s);
      if hook && !s.escaped { LeftClean(s); }
      if MayCall(s.thread, s.abandoned) {
        var more := ToTheCall(s);
      } else {
        forall more ensures Run(s, more).thread.at != Inside { NoCallLater(s, more); }
      }
    }
  }

  lemma LeftInterrupted(s: State)
    requires Inv(s) && s.caller.Left?
    ensures MayCall(s.thread, s.abandoned) ==> s.first.Some?
  {}

  lemma LeftClean(s: State)
    requires Inv(s) && s.caller.Left? && !s.escaped && s.hook
    ensures !MayCall(s.thread, s.abandoned) && (s.first.Some? ==> s.caller.how == Raising(s.first.value))
  {}

  /** A second interrupt outside the guarded body does leave the call behind: here it lands on the
      loop's condition while the worker is in the call. */
  lemma EscapeLeavesTheCallBehind()
    ensures exists acts :: var s := Run(Init(true), acts);
              s.caller.Left? && s.first.Some? && s.escaped && s.thread.at == Inside
  {
    var go, w := Go(false, None), Work(false);
    var acts := [go, w, w, w, Interrupt(1, true), go, Interrupt(2, true)];
    var s0 := Init(true);
    var s1 := Step(s0, go);
    var s2 := Step(s1, w);
    var s3 := Step(s2, w);
    var s4 := Step(s3, w);
    var s5 := Step(s4, Interrupt(1, true));
    var s6 := Step(s5, go);
    var s7 := Step(s6, Interrupt(2, true));
    assert Run(s0, acts) == s7 by {
      Unrolled(s6, Interrupt(2, true), []);
      Unrolled(s5, go, [Interrupt(2, true)]);
      Unrolled(s4, Interrupt(1, true), [go, Interrupt(2, true)]);
      Unrolled(s3, w, [Interrupt(1, true), go, Interrupt(2, true)]);
      Unrolled(s2, w, [w, Interrupt(1, true), go, Interrupt(2, true)]);
      Unrolled(s1, w, [w, w, Interrupt(1, true), go, Interrupt(2, true)]);
      Unrolled(s0, go, [w, w, w, Interrupt(1, true), go, Interrupt(2, true)]);
    }
  }
}
