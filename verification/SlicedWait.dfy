/**
 A wait asked for in parts, so that an interrupt is seen between them. `script` is what each call
 answers and how long it and everything between took; when it ends, the wait is still under way.
 */
module SlicedWait {
  import opened Basics

  const SLICE_MS := 100

  datatype Tick = Tick(elapsed: Span, answer: Option<nat>)

  datatype Got = Answered(answer: nat) | Nothing | UnderWay

  /** A call's share of the wait, the clock as last read before it, and when it returned. */
  datatype Asked = Asked(read: real, part: int, done: real)

  /** As much as a call is asked for, with so much left: whole milliseconds, and a slice at most. */
  function Part(left: real): int { if left.Floor < SLICE_MS then left.Floor else SLICE_MS }

  /** Each call is asked for as much as it may of what was left when the clock was last read, a slice of a wait
      for ever; so none passes the end, and none is for no time unless the whole wait is for none. */
  ghost predicate InSlices(asked: seq<Asked>, ms: int, end: real) {
    forall i :: 0 <= i < |asked| ==>
      && asked[i].part == (if ms < 0 then SLICE_MS else Part(end - asked[i].read))
      && (ms != 0 ==> asked[i].part >= 1)
  }

  /** With an end, the clock is read again after every call. */
  ghost predicate ReadBetween(asked: seq<Asked>, ms: int) {
    ms >= 0 ==> forall i :: 0 < i < |asked| ==> asked[i - 1].done <= asked[i].read
  }

  lemma OneMoreAsked(asked: seq<Asked>, a: Asked, ms: int, end: real)
    requires InSlices(asked, ms, end) && ReadBetween(asked, ms)
    requires a.part == (if ms < 0 then SLICE_MS else Part(end - a.read)) && (ms != 0 ==> a.part >= 1)
    requires ms >= 0 && asked != [] ==> asked[|asked| - 1].done <= a.read
    ensures InSlices(asked + [a], ms, end) && ReadBetween(asked + [a], ms)
  {}

  lemma NoneAsked(ms: int, end: real)
    ensures InSlices([], ms, end) && ReadBetween([], ms)
  {}

  lemma NonePastTheEnd(asked: seq<Asked>, ms: int, end: real, i: nat)
    requires InSlices(asked, ms, end) && i < |asked| && ms >= 0
    ensures asked[i].read + asked[i].part as real <= end && asked[i].part <= SLICE_MS
  {}

  class Waits {
    var clock: real
    var script: seq<Tick>
    var answers: seq<nat>        // what the calls answered that was not nothing
    ghost var asked: seq<Asked>

    constructor (ticks: seq<Tick>)
      ensures script == ticks && asked == [] && answers == [] && clock == 0.0
    {
      clock, script, answers, asked := 0.0, ticks, [], [];
    }

    method Now() returns (now: real)
      modifies this`clock, this`script
      ensures clock >= old(clock) && now == clock && |script| <= |old(script)|
      ensures clock == old(clock) + if old(script) == [] then 0.0 else old(script)[0].elapsed
    {
      if script != [] { clock, script := clock + script[0].elapsed, script[1..]; }
      now := clock;
    }

    method Wait(part: int, ghost read: real) returns (a: Option<nat>)
      requires script != []
      modifies this`clock, this`script, this`asked, this`answers
      ensures clock >= old(clock) && |script| < |old(script)| && asked == old(asked) + [Asked(read, part, clock)]
      ensures answers == old(answers) + if a.Some? then [a.value] else []
      ensures a == old(script)[0].answer
    {
      a := script[0].answer;
      clock, script := clock + script[0].elapsed, script[1..];
      asked := asked + [Asked(read, part, clock)];
      if a.Some? { answers := answers + [a.value]; }
    }

    /** Asks until there is an answer, and returns that one; or until `ms` have passed, none being for
        ever, and what is left below a millisecond, read at `looked`, is slept. */
    method Sliced(ms: int) returns (got: Got, ghost end: real, ghost looked: real)
      requires asked == []
      modifies this
      ensures ms >= 0 ==> end == old(clock) + ms as real + if old(script) == [] then 0.0 else old(script)[0].elapsed
      ensures InSlices(asked, ms, end) && ReadBetween(asked, ms)
      ensures answers == old(answers) + if got.Answered? then [got.answer] else []
      ensures got.Nothing? ==>
                0 <= ms && clock >= end && asked != [] && asked[|asked| - 1].done <= looked && end - looked < 1.0
      ensures got.UnderWay? ==> script == []
    {
      hide InSlices, ReadBetween;
      var now := 0.0;
      if ms >= 0 { now := Now(); }
      var until := now + ms as real;
      end, looked := until, now;
      var part := if ms < 0 then SLICE_MS else if ms < SLICE_MS then ms else SLICE_MS;
      assert ms >= 0 ==> until - now == ms as real && (ms as real).Floor == ms;
      NoneAsked(ms, end);
      while script != []
        invariant InSlices(asked, ms, end) && ReadBetween(asked, ms) && answers == old(answers) && end == until
        invariant ms >= 0 && asked != [] ==> asked[|asked| - 1].done <= now
        invariant part == (if ms < 0 then SLICE_MS else Part(end - now)) && (ms != 0 ==> part >= 1)
        invariant ms >= 0 ==> now <= clock
        decreases |script|
      {
        ghost var asked1 := asked;
        var a := Wait(part, now);
        OneMoreAsked(asked1, asked[|asked| - 1], ms, end);
        if a.Some? { return Answered(a.value), end, looked; }
        if ms >= 0 {
          now := Now();
          var left := until - now;
          looked := now;
          if left <= 0.0 { return Nothing, end, looked; }
          if left < 1.0 {
            clock := clock + left;
            return Nothing, end, looked;
          }
          part := if left.Floor < SLICE_MS then left.Floor else SLICE_MS;
        }
      }
      got := UnderWay;
    }
  }
}
