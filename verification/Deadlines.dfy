/**
 A wait inside a run. The run reads its clock, asks for what is left at most, and the wait sets a
 deadline of its own, from a reading of its own: the two deadlines differ by the time in between.
 */
module Deadlines {

  const MAX_WAIT_MS := 0x7FFF_FFFF

  /** Python's int(): towards zero. */
  function Trunc(t: real): int { if t >= 0.0 then t.Floor else -(-t).Floor }

  /** The whole milliseconds of a budget, as many as one call can be asked for. */
  function Whole(budget: real): int { if Trunc(budget) < MAX_WAIT_MS then Trunc(budget) else MAX_WAIT_MS }

  /** A look of a wait begun at `start`, the clock last read at `read` before it. A budget is kept; a
      wait without one reads the clock no more, and looks once. */
  predicate LookInTime(start: real, budget: real, read: real) {
    start <= read && (if budget > 0.0 then read < start + budget else read == start)
  }

  /** The call that brings a frame, the clock last read at `read` before it and `asked` how many
      milliseconds the driver may wait in it. With one channel it is the only call, and the driver does
      the waiting; with several each call is a look. */
  predicate CallInTime(channels: nat, start: real, budget: real, read: real, asked: int) {
    if channels == 1 then read == start && asked == Whole(budget) else asked == 0 && LookInTime(start, budget, read)
  }

  /** What a run asks of a wait: no more than is left of it. */
  predicate AsksWhatIsLeft(now: real, deadline: real, budget: real) {
    now < deadline && 0.0 <= budget && now + budget <= deadline
  }

  /** So no call is made, or waits, past the run's deadline by more than what passed between the readings. */
  lemma LateByNoMore(channels: nat, now: real, deadline: real, budget: real, start: real, read: real, asked: int)
    requires AsksWhatIsLeft(now, deadline, budget) && now <= start && CallInTime(channels, start, budget, read, asked)
    ensures read < deadline + (start - now) && read + asked as real <= deadline + (start - now)
  {}

  /** A call that can take a frame past the deadline: made at it, or left waiting beyond it. */
  predicate CanTakeLate(deadline: real, read: real, asked: int) {
    read >= deadline || read + asked as real > deadline
  }

  /** What is known before a wait's first call, its budget and when it began: with one channel, that the
      wait begins too late or the driver's part of it ends too late; with several, that it ends too late. */
  predicate Overruns(channels: nat, deadline: real, budget: real, start: real) {
    if channels == 1 then CanTakeLate(deadline, start, Whole(budget))
    else if budget > 0.0 then start + budget > deadline
    else start >= deadline
  }

  /** A wait may make such a call exactly if it overruns the deadline. */
  lemma LateIff(channels: nat, deadline: real, budget: real, start: real)
    ensures Overruns(channels, deadline, budget, start) <==>
              exists read, asked ::
                CallInTime(channels, start, budget, read, asked) && CanTakeLate(deadline, read, asked)
  {
    if Overruns(channels, deadline, budget, start) {
      var read := if channels == 1 || start >= deadline then start else deadline;
      var asked := if channels == 1 then Whole(budget) else 0;
      assert CallInTime(channels, start, budget, read, asked) && CanTakeLate(deadline, read, asked);
    }
  }

  /** Which it does not if it begins when the run read its clock, nor with that much to spare; and one
      channel not for the fraction of a millisecond that is slept, not read. */
  lemma InTimeIfPrompt(channels: nat, now: real, deadline: real, budget: real, start: real)
    requires AsksWhatIsLeft(now, deadline, budget) && now <= start
    ensures start == now ==> !Overruns(channels, deadline, budget, start)
    ensures start + budget < deadline ==> !Overruns(channels, deadline, budget, start)
    ensures channels == 1 && start < deadline && start - now <= budget - Whole(budget) as real ==>
              !Overruns(channels, deadline, budget, start)
  {}
}
