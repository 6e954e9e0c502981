/**
 The Vector receive loop against a driver that queues events and sets an auto-reset signal.

 The driver acts between any two actions of the reader: it may queue events, let time pass, and
 owes a signal whenever it queues onto an empty queue. `script` is what it does, one tick before
 each action; when the script ends the reader is observed where it stands, so a claim about every
 script is a claim about every moment of every interleaving.
 */
module VectorReader {
  import opened Basics

  datatype Frame = Frame(id: bv32, ext: bool, rtr: bool, fd: bool, brs: bool, esi: bool, data: seq<nat>)

  /** One event taken off the port's queue, as its decoder sees it. */
  datatype Event = Data(frame: Frame) | ErrorRecord | ChipState(status: int) | Other

  datatype Tick = Tick(queued: seq<Event>, signals: bool, elapsed: nat, failure: nat)

  /** `Parked`: still waiting for the signal. `Running`: anywhere else in the loop. */
  datatype Outcome = Got(frame: Frame) | Nothing | Failed(code: int) | Parked | Running

  datatype Poll = Taken(event: Event) | Empty | Status(st: nat)

  predicate NoData(es: seq<Event>) {
    forall i :: 0 <= i < |es| ==> !es[i].Data?
  }

  function Errors(es: seq<Event>): nat {
    if es == [] then 0 else Errors(es[..|es| - 1]) + if es[|es| - 1].ErrorRecord? then 1 else 0
  }

  /** The last chip state among `es`, -1 when there is none. */
  function LastChip(es: seq<Event>): int {
    if es == [] then -1
    else if es[|es| - 1].ChipState? then es[|es| - 1].status
    else LastChip(es[..|es| - 1])
  }

  /** What a read reports of the events it took and dropped. */
  datatype Tally = Tally(skips: nat, errs: nat, chip: int)

  ghost predicate Counts(t: Tally, es: seq<Event>) {
    NoData(es) && t == Tally(|es|, Errors(es), LastChip(es))
  }

  function Dropped(t: Tally, e: Event): Tally {
    Tally(t.skips + 1, t.errs + if e.ErrorRecord? then 1 else 0, if e.ChipState? then e.status else t.chip)
  }

  lemma CountsNone()
    ensures Counts(Tally(0, 0, -1), [])
  {}

  lemma CountsDropped(t: Tally, es: seq<Event>, e: Event)
    requires Counts(t, es) && !e.Data?
    ensures Counts(Dropped(t, e), es + [e])
  {
    assert (es + [e])[..|es|] == es;
  }

  /** Two reads in a row report between them what one account of all they dropped would. */
  lemma CountsJoined(t: Tally, es: seq<Event>, t': Tally, es': seq<Event>)
    requires Counts(t, es) && Counts(t', es')
    ensures NoData(es + es') && |es + es'| == t.skips + t'.skips && Errors(es + es') == t.errs + t'.errs
  {
    ErrorsJoined(es, es');
  }

  lemma {:induction false} ErrorsJoined(es: seq<Event>, es': seq<Event>)
    ensures Errors(es + es') == Errors(es) + Errors(es')
  {
    if es' == [] {
      assert es + es' == es;
    } else {
      var init := es'[..|es'| - 1];
      ErrorsJoined(es, init);
      assert (es + es')[..|es + es'| - 1] == es + init;
    }
  }

  /** The readings a read's time is counted by: when it began, when it last found time left before a poll, what
      its last wait was counted from and when that began. */
  datatype Account = Account(started: nat, looked: nat, asked: nat, from: nat)

  /** The last poll of several, at `polledAt`, came after a reading of the clock since the one `before` it, and
      that found time left. */
  predicate LookedBetween(timeout: int, several: bool, a: Account, before: nat, polledAt: nat) {
    timeout >= 0 && several ==> before <= a.looked <= polledAt && a.looked < a.started + timeout
  }

  class RxPort {
    var queue: seq<Event>
    var signal: bool
    var owed: bool
    var now: nat
    var script: seq<Tick>
    ghost var taken: seq<Event>    // every event the reader has taken
    ghost var arrived: seq<Event>  // every event the driver has queued
    ghost var polls: nat
    ghost var polledAt: nat        // the time of the last poll, and of the one before
    ghost var before: nat
    ghost var failures: nat        // the polls the driver failed, and how it failed the last poll
    ghost var failed: nat
    ghost var given: nat           // how often the signal was set, and how often the reader consumed it
    ghost var used: nat

    ghost predicate Valid()
      reads this
    {
      arrived == taken + queue && Kept()
    }

    ghost predicate Kept()
      reads this
    {
      before <= polledAt <= now && used + (if signal then 1 else 0) <= given
    }

    constructor (ticks: seq<Tick>)
      ensures Valid() && script == ticks && queue == [] && !signal && !owed
    {
      queue, signal, owed, now, script := [], false, false, 0, ticks;
      taken, arrived, polls, polledAt, before := [], [], 0, 0, 0;
      failures, failed, given, used := 0, 0, 0, 0;
    }

    /** What the driver may do meanwhile: only add to the queue, and owe a signal for an event
        queued onto an empty one. */
    twostate predicate OnlyDriver()
      reads this
    {
      && taken == old(taken) && polls == old(polls) && polledAt == old(polledAt) && before == old(before)
      && failures == old(failures) && failed == old(failed) && used == old(used)
      && old(arrived) <= arrived && now >= old(now)
      && (old(signal) ==> signal) && (old(owed) ==> owed || signal)
      && (old(queue) == [] && queue != [] ==> owed || signal)
      && (old(queue) != [] ==> queue != [])
    }

    method Interfere() returns (failure: nat)
      requires Valid() && script != []
      modifies this`queue, this`signal, this`owed, this`now, this`script, this`arrived, this`given
      ensures Valid() && OnlyDriver() && script == old(script)[1..] && failure == old(script)[0].failure
      ensures now == old(now) + old(script)[0].elapsed
      ensures queue == old(queue) + old(script)[0].queued && arrived == old(arrived) + old(script)[0].queued
      ensures var due := old(owed) || (old(queue) == [] && queue != []);
              && signal == (old(signal) || (due && old(script)[0].signals)) && owed == (due && !old(script)[0].signals)
    {
      var t := script[0];
      script := script[1..];
      now := now + t.elapsed;
      if queue == [] && t.queued != [] { owed := true; }
      assert arrived + t.queued == taken + (queue + t.queued);
      queue, arrived := queue + t.queued, arrived + t.queued;
      if owed && t.signals { owed, signal, given := false, true, given + 1; }
      failure := t.failure;
    }

    /** One receive call: an event off the queue, the empty status, or a driver failure. */
    method TakeOne() returns (p: Poll)
      requires Valid() && script != []
      modifies this
      ensures Valid() && script == old(script)[1..] && polls == old(polls) + 1 && now >= old(now)
      ensures polledAt == now && before == old(polledAt) && used == old(used)
      ensures failed == old(script)[0].failure && failures == old(failures) + if failed > 0 then 1 else 0
      ensures old(arrived) <= arrived
      ensures p.Taken? ==> taken == old(taken) + [p.event]
      ensures !p.Taken? ==> taken == old(taken)
      ensures p.Empty? ==> queue == []
      ensures p.Status? <==> failed > 0
      ensures p.Status? ==> p.st == failed
    {
      var failure := Interfere();
      polls, polledAt, before := polls + 1, now, polledAt;
      failed := failure;
      if failed > 0 { failures := failures + 1; }
      if failure > 0 { return Status(failure); }
      if queue == [] { return Empty; }
      p := Taken(queue[0]);
      taken, queue := taken + [queue[0]], queue[1..];
    }

    /** The driver goes on while the reader looks at the clock. */
    method Clock() returns (t: nat)
      requires Valid()
      modifies this`queue, this`signal, this`owed, this`now, this`script, this`arrived, this`given
      ensures Valid() && OnlyDriver() && |script| <= |old(script)| && t == now >= polledAt
      ensures t == old(now) + if old(script) == [] then 0 else old(script)[0].elapsed
      ensures old(script) != [] ==> script == old(script)[1..]
    {
      if script != [] { var _ := Interfere(); }
      t := now;
    }

    /** Waits for the signal at most `budget` (for ever when it is negative), and consumes it. It counts from
        `from`; it is left waiting only while that time is not over, and waits on from `until`, last, only if it was
        not by then. */
    method Wait(budget: int) returns (woken: bool, parked: bool, ghost from: nat, ghost until: nat)
      requires Valid() && (queue != [] ==> signal || owed)
      modifies this`queue, this`signal, this`owed, this`now, this`script, this`arrived, this`given, this`used
      ensures Valid() && |script| <= |old(script)| && old(now) <= from <= now && old(arrived) <= arrived
      ensures used == old(used) + if woken then 1 else 0
      ensures parked ==> script == [] && !signal && (queue != [] ==> owed) && !woken
      ensures parked ==> budget < 0 || now < from + budget
      ensures from <= until <= now && (budget >= 0 && now > from ==> until < from + budget)
      ensures !parked && !woken ==> 0 <= budget && now >= from + budget
    {
      parked := false;
      var began := Clock();
      from, until := began, began;
      while !signal && (budget < 0 || now < began + budget) && script != []
        invariant Valid() && |script| <= |old(script)| && now >= began && old(arrived) <= arrived
        invariant queue != [] ==> signal || owed
        invariant used == old(used) && from <= until <= now && (budget >= 0 && now > from ==> until < from + budget)
        decreases |script|
      {
        until := now;
        var _ := Interfere();
      }
      woken := signal;
      if woken {
        signal, used := false, used + 1;
      } else if budget < 0 || now < began + budget {
        parked := true;
      }
    }

    /** Whether a wait of what was left at `asked`, counted from `from`, is not over. */
    ghost predicate StillTime(timeout: int, started: nat, asked: nat, from: nat)
      reads this`now
    {
      started <= asked <= from <= now && asked - started < timeout && now < from + (timeout - (asked - started))
    }

    /** The queue really was empty: waits for the signal, or sleeps where there is none. `Running`
        says to poll again. */
    method Rest(timeout: int, hasEvent: bool, started: nat) returns (stop: Outcome, ghost asked: nat, ghost from: nat)
      requires Valid() && queue == [] && now >= started
      modifies this`queue, this`signal, this`owed, this`now, this`script, this`arrived, this`given, this`used
      ensures Valid() && |script| <= |old(script)| && now >= old(now) && old(arrived) <= arrived
      ensures stop.Running? || stop.Nothing? || stop.Parked?
      ensures used == old(used) + if stop.Running? && hasEvent then 1 else 0
      ensures stop.Parked? ==> hasEvent && script == [] && !signal && (queue != [] ==> owed)
      ensures stop.Parked? && timeout >= 0 ==> StillTime(timeout, started, asked, from)
      ensures stop.Running? && timeout >= 0 ==> old(now) <= asked && asked - started < timeout
      ensures stop.Nothing? ==> 0 <= timeout && now - started >= timeout
    {
      var budget := -1;
      asked, from := now, now;
      if timeout >= 0 {
        var t := Clock();
        asked := t;
        if t - started >= timeout { return Nothing, asked, from; }
        budget := timeout - (t - started);
      }
      if !hasEvent {
        var _ := Clock();  // a short sleep
        return Running, asked, from;
      }
      var woken, parked; ghost var until;
      woken, parked, from, until := Wait(budget);
      stop := if parked then Parked else if woken then Running else Nothing;
    }

    /** Once round: the clock first, but before the first poll; a poll; and, on an empty queue, a rest. An event
        that is not traffic is `skipped`. */
    method PollOnce(timeout: int, hasEvent: bool, started: nat, polled: bool, ghost a: Account)
      returns (out: Outcome, skipped: Option<Event>, ghost a': Account)
      requires Valid() && script != [] && started <= now
      modifies this
      ensures Valid() && |script| < |old(script)| && now >= old(now) && old(arrived) <= arrived
      ensures taken == old(taken) + (if skipped.Some? then [skipped.value] else [])
                       + if out.Got? then [Data(out.frame)] else []
      ensures skipped.Some? ==> out.Running? && !skipped.value.Data?
      ensures polls == old(polls) || polls == old(polls) + 1
      ensures polls == old(polls) ==>
                && polledAt == old(polledAt) && before == old(before) && (out.Running? ==> a' == a && script == [])
                && polled && !out.Failed? && !out.Parked? && !out.Got?
      ensures polls > old(polls) ==> before == old(polledAt)
      ensures polled && timeout >= 0 && polls > old(polls) ==>
                before <= a'.looked <= polledAt && a'.looked < started + timeout
      ensures a'.started == a.started
      ensures out.Parked? ==> hasEvent && script == [] && !signal && (queue != [] ==> owed)
      ensures out.Parked? && timeout >= 0 ==> StillTime(timeout, started, a'.asked, a'.from)
      ensures out.Nothing? ==> 0 <= timeout && now - started >= timeout
      ensures failures == old(failures) + if out.Failed? then 1 else 0
      ensures out.Failed? ==> failed > 0 && out.code == 0 - failed
      ensures hasEvent ==> polls + old(used) <= old(polls) + used + if out.Running? && skipped.None? then 0 else 1
      ensures used >= old(used)
    {
      hide StillTime;
      a', skipped := a, None;
      if polled && timeout >= 0 {
        var t := Clock();
        if t - started >= timeout { return Nothing, skipped, a'; }
        if script == [] { return Running, skipped, a'; }
        a' := a'.(looked := t);
      }
      var p := TakeOne();
      if p.Status? { return Failed(0 - p.st), skipped, a'; }
      if p.Taken? {
        if p.event.Data? { return Got(p.event.frame), skipped, a'; }
        // taken and dropped: poll again, its signal may have been consumed already
        return Running, Some(p.event), a';
      }
      ghost var asked, from;
      out, asked, from := Rest(timeout, hasEvent, started);
      a' := a'.(asked := asked, from := from);
    }

    /** One read: polls at least once, skips what is not traffic without waiting, and waits only
        on a queue it found empty; no oftener than for each event it skips and each signal it consumes. */
    method Read(timeout: int, hasEvent: bool) returns (out: Outcome, tally: Tally, ghost dropped: seq<Event>,
                                                       ghost times: Account)
      requires Valid()
      modifies this
      ensures Valid() && now >= old(now) && old(arrived) <= arrived
      ensures times.started == old(now) + if old(script) == [] then 0 else old(script)[0].elapsed
      ensures taken == old(taken) + dropped + if out.Got? then [Data(out.frame)] else []
      ensures Counts(tally, dropped)
      ensures !out.Running? ==> polls > old(polls)
      ensures out.Running? ==> script == []
      ensures out.Running? || out.Parked? ==> LookedBetween(timeout, polls > old(polls) + 1, times, before, polledAt)
      ensures out.Parked? ==> hasEvent && script == [] && !signal && (queue != [] ==> owed)
      ensures out.Parked? && timeout >= 0 ==> StillTime(timeout, times.started, times.asked, times.from)
      ensures out.Nothing? ==> 0 <= timeout && now - times.started >= timeout
      ensures failures == old(failures) + if out.Failed? then 1 else 0
      ensures out.Failed? ==> failed > 0 && out.code == 0 - failed
      ensures hasEvent ==> polls + old(used) <= old(polls) + 1 + |dropped| + used
    {
      hide Counts, StillTime, Valid, Kept;
      tally, dropped := Tally(0, 0, -1), [];
      var started := Clock();
      times := Account(started, started, started, started);
      var polled := false;
      assert Counts(tally, dropped) by { CountsNone(); }
      while script != []
        invariant Valid() && now >= started == times.started && old(arrived) <= arrived
        invariant taken == old(taken) + dropped && Counts(tally, dropped)
        invariant polls >= old(polls) && (polled <==> polls > old(polls))
        invariant LookedBetween(timeout, polls > old(polls) + 1, times, before, polledAt) && failures == old(failures)
        invariant hasEvent ==> polls + old(used) <= old(polls) + |dropped| + used
        decreases |script|
      {
        var skipped;
        out, skipped, times := PollOnce(timeout, hasEvent, started, polled, times);
        if skipped.Some? {
          CountsDropped(tally, dropped, skipped.value);
          tally, dropped := Dropped(tally, skipped.value), dropped + [skipped.value];
        } else if !out.Running? {
          return;
        }
        polled := true;
      }
      out := Running;
    }
  }
}
