/**
 The wait under the event loop: one frame from any of several channels, in turn.

 Between any two actions of the wait the world lets time pass and queues records; a channel may
 answer an error. `script` is what it does, and when it ends the wait is observed where it stands.
 */
module WaitOn {
  import opened Basics
  import opened Deadlines

  const ERROR_REST_MS := 20.0
  const WAIT_SLICE_MS := 0.1

  /** What a channel has queued: frames, and records that are not frames. */
  datatype Record = Frame(id: nat) | NotFrame

  datatype Turn = Looking | Late | Ended

  datatype Between = Again | Expired | Negative

  datatype Fault = Fine | Passing | Fatal

  /** What is queued on each channel. */
  type Queues = seq<seq<Record>>

  /** `arriving` is what each channel is sent, `reach` how many records one look reads, at most. */
  datatype Tick = Tick(elapsed: Span, arriving: Queues, fault: Fault, reach: nat)

  /** One look at a channel; `spent`: it stopped at its bound with records still queued. */
  datatype Poll = HasFrame(id: nat) | NoFrame(spent: bool) | AnError(fatal: bool)

  /** How a wait ends. `Raised`: a channel's error that will not clear. `Refused`: it asked for a
      sleep of less than nothing, which Python refuses. `Stopped`: still under way. */
  datatype Got = Nothing | Took(channel: nat, id: nat) | Raised | Refused | Stopped

  /** What a wait did, and the clock as it last read it before; `short`: the look stopped at its bound with records
      still queued, and can say so. */
  datatype Did =
    | Looked(channel: nat, read: real, deadline: real, budget: real, asked: int, short: bool)
    | Slept(read: real, ms: real, deadline: real)

  /** With a budget, nothing is looked at once the deadline has passed, and no sleep goes past it; no call
      waits past it either (`CallKeepsBudget`). `n`: how many channels there are. */
  predicate InTime(n: nat, d: Did) {
    match d
    case Looked(_, read, deadline, budget, asked, _) => CallInTime(n, deadline - budget, budget, read, asked)
    case Slept(read, ms, deadline) => 0.0 <= ms && read + ms <= deadline
  }

  lemma CallKeepsBudget(n: nat, d: Did)
    requires InTime(n, d) && d.Looked? && d.budget > 0.0
    ensures d.read < d.deadline && d.read + d.asked as real <= d.deadline && d.asked <= MAX_WAIT_MS
  {}

  function Arrived(t: Tick, c: nat): seq<Record> { if c < |t.arriving| then t.arriving[c] else [] }

  function Grown(queues: Queues, t: Tick): (r: Queues)
    ensures |r| == |queues| && forall c :: 0 <= c < |r| ==> r[c] == queues[c] + Arrived(t, c)
  {
    seq(|queues|, c requires 0 <= c < |queues| => queues[c] + Arrived(t, c))
  }

  /** The frames among `records`. */
  function Frames(records: seq<Record>): seq<nat> {
    if records == [] then []
    else Frames(records[..|records| - 1]) +
         match records[|records| - 1] { case Frame(id) => [id] case NotFrame => [] }
  }

  lemma FramesAnd(records: seq<Record>, r: Record)
    ensures Frames(records + [r]) == Frames(records) + match r { case Frame(id) => [id] case NotFrame => [] }
  {
    assert (records + [r])[..|records|] == records;
  }

  /** How many records are queued ahead of the first frame; all of them when there is none. */
  function Ahead(q: seq<Record>): (n: nat)
    ensures n <= |q|
  {
    if q == [] || q[0].Frame? then 0 else 1 + Ahead(q[1..])
  }

  /** A look that reads `reach` records comes to a frame. */
  predicate FrameWithin(q: seq<Record>, reach: nat) { Ahead(q) < |q| && Ahead(q) < reach }

  lemma {:induction false} AheadIsFirst(q: seq<Record>)
    ensures forall i :: 0 <= i < Ahead(q) ==> q[i].NotFrame?
    ensures Ahead(q) < |q| ==> q[Ahead(q)].Frame?
  {
    if q != [] && q[0].NotFrame? {
      AheadIsFirst(q[1..]);
      forall i | 0 <= i < Ahead(q) ensures q[i].NotFrame? { if i > 0 { assert q[i] == q[1..][i - 1]; } }
    }
  }

  /** Past `i` records that are not frames. */
  lemma {:induction false} AheadPast(q: seq<Record>, i: nat)
    requires i <= |q| && forall j :: 0 <= j < i ==> q[j].NotFrame?
    ensures Ahead(q) == i + Ahead(q[i..])
  {
    if i > 0 {
      forall j | 0 <= j < i - 1 ensures q[1..][j].NotFrame? { assert q[1..][j] == q[j + 1]; }
      AheadPast(q[1..], i - 1);
      assert q[1..][i - 1..] == q[i..];
    } else {
      assert q[0..] == q;
    }
  }

  lemma {:induction false} AheadGrown(q: seq<Record>, more: seq<Record>)
    ensures Ahead(q) < |q| ==> Ahead(q + more) == Ahead(q)
    ensures Ahead(q) == |q| ==> Ahead(q + more) == |q| + Ahead(more)
  {
    if q == [] {
      assert q + more == more;
    } else {
      assert (q + more)[1..] == q[1..] + more;
      AheadGrown(q[1..], more);
    }
  }

  // ---- positions in the rotation -------------------------------------------------------------

  function Prod(a: nat, b: nat): nat { a * b }

  lemma ProdAdds(n: nat, a: nat, b: nat)
    ensures Prod(n, a + b) == Prod(n, a) + Prod(n, b)
  {}

  lemma ProdGrows(n: nat, k: nat)
    requires k > 0
    ensures Prod(n, k) >= n
  {}

  lemma OneQuotient(n: nat, q: nat, r: nat, q': nat, r': nat)
    requires r < n && r' < n && Prod(n, q) + r == Prod(n, q') + r'
    ensures r == r'
  {
    hide Prod;
    if q < q' {
      ProdAdds(n, q, q' - q);
      ProdGrows(n, q' - q);
    } else if q' < q {
      ProdAdds(n, q', q - q');
      ProdGrows(n, q - q');
    }
  }

  lemma ModIs(x: nat, q: nat, r: nat, n: nat)
    requires n > 0 && x == n * q + r && r < n
    ensures x % n == r
  {
    assert x == n * (x / n) + x % n;
    OneQuotient(n, q, r, x / n, x % n);
  }

  /** How far `c` is from the round-robin position. */
  function Distance(rr: nat, c: nat, n: nat): (d: nat)
    requires c < n
    ensures d < n
  {
    var r := rr % n;
    if c >= r then c - r else c - r + n
  }

  /** The channel `k` steps from the position. */
  function Slot(rr: nat, k: nat, n: nat): (c: nat)
    requires n > 0
    ensures c < n
  {
    (rr + k) % n
  }

  lemma SlotAt(rr: nat, k: nat, n: nat)
    requires k < n
    ensures Distance(rr, Slot(rr, k, n), n) == k
  {
    var q, r := rr / n, rr % n;
    assert rr == n * q + r;
    if r + k < n { ModIs(rr + k, q, r + k, n); } else {
      assert rr + k == n * (q + 1) + (r + k - n);
      ModIs(rr + k, q + 1, r + k - n, n);
    }
  }

  lemma DistanceInjective(rr: nat, a: nat, b: nat, n: nat)
    requires a < n && b < n && Distance(rr, a, n) == Distance(rr, b, n)
    ensures a == b
  {}

  /** Serving `s` puts the position just behind it: every channel past `s` is that much nearer. */
  lemma ServingApproaches(rr: nat, s: nat, c: nat, n: nat)
    requires s < n && c < n && Distance(rr, s, n) < Distance(rr, c, n)
    ensures Distance(s + 1, c, n) == Distance(rr, c, n) - Distance(rr, s, n) - 1
  {
    if s + 1 == n { ModIs(n, 1, 0, n); } else { ModIs(s + 1, 0, s + 1, n); }
  }

  // ---- what happens to the channels -----------------------------------------------------------

  /** Each channel's records keep their order and none is lost: only added behind, or taken in front. */
  ghost predicate Flows(g: Queues, q: Queues, g': Queues, q': Queues) {
    && |g| == |q| == |g'| == |q'|
    && forall c :: 0 <= c < |q| ==> g[c] + q[c] <= g'[c] + q'[c]
  }

  /** Channel `c` lost no frame, and its first frame has come no less near. */
  ghost predicate Keeps(c: nat, g: Queues, q: Queues, g': Queues, q': Queues)
    requires c < |g| == |q| == |g'| == |q'|
  {
    Frames(g'[c]) == Frames(g[c]) && (Ahead(q[c]) < |q[c]| ==> Ahead(q'[c]) < |q'[c]| && Ahead(q'[c]) <= Ahead(q[c]))
  }

  /** No frame was taken off any channel. */
  ghost predicate NoneTaken(g: Queues, q: Queues, g': Queues, q': Queues) {
    Flows(g, q, g', q') && forall c :: 0 <= c < |q| ==> Keeps(c, g, q, g', q')
  }

  /** One frame was taken: `id`, off channel `k`. */
  ghost predicate OneTaken(k: nat, id: nat,
                           g: Queues, q: Queues, g': Queues, q': Queues) {
    && Flows(g, q, g', q') && k < |q| && Frames(g'[k]) == Frames(g[k]) + [id]
    && forall c :: 0 <= c < |q| && c != k ==> Keeps(c, g, q, g', q')
  }

  lemma NoneTakenTwice(g: Queues, q: Queues, g1: Queues, q1: Queues,
                       g2: Queues, q2: Queues)
    requires NoneTaken(g, q, g1, q1) && NoneTaken(g1, q1, g2, q2)
    ensures NoneTaken(g, q, g2, q2)
  {
    hide Frames, FrameWithin;
    forall c | 0 <= c < |q| ensures Keeps(c, g, q, g2, q2) && g[c] + q[c] <= g2[c] + q2[c] {
      assert Keeps(c, g, q, g1, q1) && Keeps(c, g1, q1, g2, q2);
    }
  }

  lemma OneTakenAfter(k: nat, id: nat, g: Queues, q: Queues,
                      g1: Queues, q1: Queues, g2: Queues, q2: Queues)
    requires NoneTaken(g, q, g1, q1) && OneTaken(k, id, g1, q1, g2, q2)
    ensures OneTaken(k, id, g, q, g2, q2)
  {
    hide Frames, FrameWithin;
    assert Keeps(k, g, q, g1, q1);
    forall c | 0 <= c < |q| ensures (c != k ==> Keeps(c, g, q, g2, q2)) && g[c] + q[c] <= g2[c] + q2[c] {
      assert Keeps(c, g, q, g1, q1);
      assert c != k ==> Keeps(c, g1, q1, g2, q2);
    }
  }

  /** Taking records that are not frames off the front of channel `k` takes no frame. */
  lemma {:induction false} SkippedFront(records: seq<Record>, skipped: seq<Record>)
    requires forall i :: 0 <= i < |skipped| ==> skipped[i].NotFrame?
    ensures Frames(records + skipped) == Frames(records)
  {
    if skipped == [] {
      assert records + skipped == records;
    } else {
      var init := skipped[..|skipped| - 1];
      SkippedFront(records, init);
      assert (records + skipped)[..|records + skipped| - 1] == records + init;
    }
  }

  /** A look went past `i` records of channel `k`, none of them a frame. */
  lemma LookedPast(g: Queues, q: Queues, k: nat, i: nat)
    requires |g| == |q| && k < |q| && i <= |q[k]| && forall j :: 0 <= j < i ==> q[k][j].NotFrame?
    ensures NoneTaken(g, q, g[k := g[k] + q[k][..i]], q[k := q[k][i..]])
  {
    var g', q' := g[k := g[k] + q[k][..i]], q[k := q[k][i..]];
    SkippedFront(g[k], q[k][..i]);
    AheadPast(q[k], i);
    assert g'[k] + q'[k] == g[k] + q[k];
    forall c | 0 <= c < |q| ensures Keeps(c, g, q, g', q') && g[c] + q[c] <= g'[c] + q'[c] {}
  }

  /** It then took the frame at the channel's head. */
  lemma TookHead(g: Queues, q: Queues, k: nat)
    requires |g| == |q| && k < |q| && q[k] != [] && q[k][0].Frame?
    ensures OneTaken(k, q[k][0].id, g, q, g[k := g[k] + [q[k][0]]], q[k := q[k][1..]])
  {
    var g', q' := g[k := g[k] + [q[k][0]]], q[k := q[k][1..]];
    FramesAnd(g[k], q[k][0]);
    assert g'[k] + q'[k] == g[k] + q[k];
    forall c | 0 <= c < |q| ensures (c != k ==> Keeps(c, g, q, g', q')) && g[c] + q[c] <= g'[c] + q'[c] {}
  }

  lemma MoreArrived(g: Queues, q: Queues, t: Tick)
    requires |g| == |q|
    ensures NoneTaken(g, q, g, Grown(q, t))
  {
    var q' := Grown(q, t);
    forall c | 0 <= c < |q| ensures Keeps(c, g, q, g, q') && g[c] + q[c] <= g[c] + q'[c] {
      assert g[c] + q'[c] == (g[c] + q[c]) + Arrived(t, c);
      AheadGrown(q[c], Arrived(t, c));
    }
  }

  lemma NothingHappened(g: Queues, q: Queues)
    requires |g| == |q|
    ensures NoneTaken(g, q, g, q)
  {}

  /** What a wait took off the channels: the frame it returned, nothing else. */
  ghost predicate Result(got: Got, g: Queues, q: Queues, g': Queues, q': Queues) {
    match got
    case Took(channel, id) => OneTaken(channel, id, g, q, g', q')
    case _ => NoneTaken(g, q, g', q')
  }

  lemma ResultAfter(got: Got, g: Queues, q: Queues, g1: Queues, q1: Queues,
                    g2: Queues, q2: Queues)
    requires NoneTaken(g, q, g1, q1) && Result(got, g1, q1, g2, q2)
    ensures Result(got, g, q, g2, q2)
  {
    hide NoneTaken, OneTaken;
    if got.Took? {
      OneTakenAfter(got.channel, got.id, g, q, g1, q1, g2, q2);
    } else {
      NoneTakenTwice(g, q, g1, q1, g2, q2);
    }
  }

  /** A look that brought no frame: the first one queued is `reach` records nearer. */
  predicate Advanced(q: seq<Record>, q': seq<Record>, reach: nat) {
    Ahead(q) < |q| ==> Ahead(q') < |q'| && Ahead(q') + reach <= Ahead(q)
  }

  /** So it was of every channel nearer the position than `k` steps, unless it answered an error. */
  ghost predicate Passed(q: Queues, q': Queues, rr: nat, k: nat, erred: set<nat>, reach: nat) {
    && |q'| == |q|
    && forall c: nat :: c < |q| && c !in erred && Distance(rr, c, |q|) < k ==> Advanced(q[c], q'[c], reach)
  }

  /** None of them had a frame within a look's bound. */
  ghost predicate NoneNearer(q: Queues, rr: nat, k: nat, erred: set<nat>, reach: nat) {
    forall c: nat :: c < |q| && c !in erred && FrameWithin(q[c], reach) ==> Distance(rr, c, |q|) >= k
  }

  lemma NearestFirst(q: Queues, q': Queues, rr: nat, k: nat, erred: set<nat>, reach: nat)
    requires Passed(q, q', rr, k, erred, reach)
    ensures NoneNearer(q, rr, k, erred, reach)
  {
    hide Distance, Ahead;
    forall c: nat | c < |q| && c !in erred && Distance(rr, c, |q|) < k ensures !FrameWithin(q[c], reach) {
      assert Advanced(q[c], q'[c], reach);
    }
  }

  lemma OneFurther(q: Queues, q1: Queues, g1: Queues, q': Queues, g': Queues,
                   rr: nat, k: nat, erred: set<nat>, erred': set<nat>, reach: nat)
    requires Passed(q, q1, rr, k, erred, reach) && NoneTaken(g1, q1, g', q') && erred <= erred' && k < |q|
    requires Slot(rr, k, |q|) in erred' || Advanced(q[Slot(rr, k, |q|)], q'[Slot(rr, k, |q|)], reach)
    ensures Passed(q, q', rr, k + 1, erred', reach)
  {
    SlotAt(rr, k, |q|);
    hide Distance, Ahead, Frames;
    forall c: nat | c < |q| && c !in erred' && Distance(rr, c, |q|) < k + 1 ensures Advanced(q[c], q'[c], reach) {
      assert Keeps(c, g1, q1, g', q');
      if Distance(rr, c, |q|) == k {
        DistanceInjective(rr, c, Slot(rr, k, |q|), |q|);
      } else {
        assert Advanced(q[c], q1[c], reach);
      }
    }
  }

  lemma NoneYet(q: Queues, q': Queues, rr: nat, erred: set<nat>, reach: nat)
    requires |q'| == |q|
    ensures Passed(q, q', rr, 0, erred, reach)
    ensures q == [] ==> forall k: nat :: Passed(q, q', rr, k, erred, reach)
  {}

  /** Taking nothing more, before or after, changes nothing of that. */
  lemma PassedStill(q: Queues, g1: Queues, q1: Queues, g': Queues, q': Queues,
                    rr: nat, k: nat, erred: set<nat>, erred': set<nat>, reach: nat)
    requires Passed(q, q1, rr, k, erred, reach) && NoneTaken(g1, q1, g', q') && erred <= erred'
    ensures Passed(q, q', rr, k, erred', reach)
  {
    hide Distance, Ahead, Frames;
    forall c: nat | c < |q| && c !in erred' && Distance(rr, c, |q|) < k ensures Advanced(q[c], q'[c], reach) {
      assert Keeps(c, g1, q1, g', q') && Advanced(q[c], q1[c], reach);
    }
  }

  lemma PassedBefore(g: Queues, q: Queues, g1: Queues, q1: Queues, q': Queues,
                     rr: nat, k: nat, erred: set<nat>, reach: nat)
    requires NoneTaken(g, q, g1, q1) && Passed(q1, q', rr, k, erred, reach)
    ensures Passed(q, q', rr, k, erred, reach)
  {
    hide Distance, Ahead, Frames;
    forall c: nat | c < |q| && c !in erred && Distance(rr, c, |q|) < k ensures Advanced(q[c], q'[c], reach) {
      assert Keeps(c, g, q, g1, q1) && Advanced(q1[c], q'[c], reach);
    }
  }

  /** Nor does taking a frame off a channel no nearer. */
  lemma PassedTook(q: Queues, g1: Queues, q1: Queues, g': Queues, q': Queues,
                   rr: nat, s: nat, id: nat, erred: set<nat>, erred': set<nat>, reach: nat)
    requires s < |q| && Passed(q, q1, rr, Distance(rr, s, |q|), erred, reach) && erred <= erred'
    requires OneTaken(s, id, g1, q1, g', q')
    ensures Passed(q, q', rr, Distance(rr, s, |q|), erred', reach)
  {
    hide Distance, Ahead, Frames;
    forall c: nat | c < |q| && c !in erred' && Distance(rr, c, |q|) < Distance(rr, s, |q|)
      ensures Advanced(q[c], q'[c], reach)
    {
      assert Keeps(c, g1, q1, g', q') && Advanced(q[c], q1[c], reach);
    }
  }

  /** A look that brought none, seen from before anything went before it. */
  lemma AdvancedBefore(g: Queues, q: Queues, g1: Queues, q1: Queues, q': seq<Record>, c: nat, reach: nat)
    requires NoneTaken(g, q, g1, q1) && c < |q| == |q1| && Advanced(q1[c], q', reach)
    ensures Advanced(q[c], q', reach)
  {
    assert Keeps(c, g, q, g1, q1);
  }

  lemma AdvancedStill(g1: Queues, q1: Queues, g': Queues, q': Queues, q: seq<Record>, c: nat, reach: nat)
    requires NoneTaken(g1, q1, g', q') && c < |q1| == |q'| && Advanced(q, q1[c], reach)
    ensures Advanced(q, q'[c], reach)
  {
    assert Keeps(c, g1, q1, g', q');
  }

  /** With one channel nothing is nearer. */
  lemma OnlyOne(q: Queues, q': Queues, rr: nat, erred: set<nat>, reach: nat)
    requires |q| == |q'| == 1
    ensures Distance(rr, 0, 1) == 0
    ensures 0 in erred || Advanced(q[0], q'[0], reach) ==> Passed(q, q', rr, 1, erred, reach)
  {}

  /** Where the clock stands before the k-th look of a round: read once a budget was counted from, and
      with a budget read again before each look but the first. */
  predicate TurnInTime(k: nat, timeout: real, deadline: real, read: real) {
    if k == 0 || timeout <= 0.0 then LookInTime(deadline - timeout, timeout, read) else deadline - timeout <= read
  }

  /** The k-th look of a round found a frame. */
  lemma FoundOne(g: Queues, q: Queues, g1: Queues, q1: Queues,
                 g2: Queues, q2: Queues, rr: nat, k: nat, id: nat, erred: set<nat>, erred': set<nat>, reach: nat)
    requires NoneTaken(g, q, g1, q1) && Passed(q, q1, rr, k, erred, reach) && erred <= erred' && k < |q| == |q1|
    requires OneTaken(Slot(rr, k, |q|), id, g1, q1, g2, q2)
    ensures Result(Took(Slot(rr, k, |q|), id), g, q, g2, q2) && Slot(rr, k, |q|) < |q|
    ensures Passed(q, q2, rr, Distance(rr, Slot(rr, k, |q|), |q|), erred', reach)
  {
    SlotAt(rr, k, |q|);
    hide NoneTaken, OneTaken, Passed, Distance;
    OneTakenAfter(Slot(rr, k, |q|), id, g, q, g1, q1, g2, q2);
    PassedTook(q, g1, q1, g2, q2, rr, Slot(rr, k, |q|), id, erred, erred', reach);
  }

  /** It found none. */
  lemma FoundNone(g: Queues, q: Queues, g1: Queues, q1: Queues,
                  g2: Queues, q2: Queues, rr: nat, k: nat, erred: set<nat>, erred': set<nat>, reach: nat)
    requires NoneTaken(g, q, g1, q1) && Passed(q, q1, rr, k, erred, reach) && erred <= erred' && k < |q| == |q1|
    requires NoneTaken(g1, q1, g2, q2) && |q2| == |q|
    requires Slot(rr, k, |q|) in erred' || Advanced(q1[Slot(rr, k, |q|)], q2[Slot(rr, k, |q|)], reach)
    ensures NoneTaken(g, q, g2, q2) && Passed(q, q2, rr, k + 1, erred', reach)
  {
    hide NoneTaken, Passed, Distance, Advanced;
    NoneTakenTwice(g, q, g1, q1, g2, q2);
    var c := Slot(rr, k, |q|);
    if c !in erred' { AdvancedBefore(g, q, g1, q1, q2[c], c, reach); }
    OneFurther(q, q1, g1, q2, g2, rr, k, erred, erred', reach);
  }

  lemma WholePart(c: nat, read: real, deadline: real, budget: real, asked: int)
    requires deadline == read + budget && asked == Whole(budget)
    ensures forall short :: InTime(1, Looked(c, read, deadline, budget, asked, short))
  {}

  lemma AtOnce(n: nat, c: nat, read: real, deadline: real, budget: real)
    requires LookInTime(deadline - budget, budget, read) && n != 1
    ensures forall short :: InTime(n, Looked(c, read, deadline, budget, 0, short))
  {}

  lemma SameCall(n: nat, c: nat, read: real, deadline: real, budget: real, asked: int)
    ensures forall a, b :: InTime(n, Looked(c, read, deadline, budget, asked, a)) ==>
              InTime(n, Looked(c, read, deadline, budget, asked, b))
  {}

  /** Some look since stopped at its bound. */
  ghost predicate ShortSince(did: seq<Did>, from: nat) {
    exists i :: from <= i < |did| && did[i].Looked? && did[i].short
  }

  lemma ShortAnd(did: seq<Did>, d: Did, from: nat)
    requires from <= |did|
    ensures ShortSince(did + [d], from) <==> ShortSince(did, from) || (d.Looked? && d.short)
  {
    var more := did + [d];
    if i :| from <= i < |did| && did[i].Looked? && did[i].short { assert more[i] == did[i]; }
    if d.Looked? && d.short { assert more[|did|] == d; }
  }

  lemma NoneShort(did: seq<Did>)
    ensures !ShortSince(did, |did|)
  {}

  lemma Within(read: real, ms: real, deadline: real)
    requires 0.0 <= ms <= deadline - read
    ensures forall n: nat :: InTime(n, Slept(read, ms, deadline))
  {}

  // ---- fairness over many waits ---------------------------------------------------------------

  /** The waits that return a frame until a channel is served: its distance, and a whole rotation for each
      time a look may stop short of its first frame. */
  function Turns(q: Queues, c: nat, rr: nat, reach: nat): nat
    requires c < |q| && reach > 0
  {
    Distance(rr, c, |q|) + Prod(|q|, Ahead(q[c]) / reach)
  }

  /** Within a look's bound it is the distance alone. */
  lemma TurnsWithin(q: Queues, c: nat, rr: nat, reach: nat)
    requires c < |q| && FrameWithin(q[c], reach)
    ensures Turns(q, c, rr, reach) == Distance(rr, c, |q|)
  {
    assert Ahead(q[c]) / reach == 0;
  }

  /** Of a channel that had a frame queued, `promised` its turn after so many: it has had it, or its frame is
      still queued and its turn comes as soon as promised. */
  ghost predicate InTurn(c: nat, promised: nat, rr: nat, served: seq<nat>, q: Queues, reach: nat)
    requires reach > 0
  {
    && c < |q|
    && (|| (exists i :: 0 <= i < |served| && i <= promised && served[i] == c)
        || (Ahead(q[c]) < |q[c]| && Turns(q, c, rr, reach) + |served| <= promised))
  }

  ghost predicate Fair(q0: Queues, rr0: nat, rr: nat, served: seq<nat>, q: Queues, erred: set<nat>, reach: nat)
    requires reach > 0
  {
    && |q0| == |q|
    && forall c: nat :: c < |q| && c !in erred && Ahead(q0[c]) < |q0[c]| ==>
         InTurn(c, Turns(q0, c, rr0, reach), rr, served, q, reach)
  }

  /** A first frame no further off takes no more rotations; one that a look came nearer, one fewer. */
  lemma Rotations(n: nat, a: nat, a': nat, reach: nat)
    requires reach > 0 && a' <= a
    ensures Prod(n, a' / reach) <= Prod(n, a / reach)
    ensures a' + reach <= a ==> Prod(n, a' / reach) + n <= Prod(n, a / reach)
  {
    var x, x' := a / reach, a' / reach;
    assert a == reach * x + a % reach && a' == reach * x' + a' % reach;
    if x' > x {
      assert reach * x' >= reach * (x + 1) by { ProdAdds(reach, x + 1, x' - x - 1); }
      assert false;
    }
    ProdAdds(n, x', x - x');
    if a' + reach <= a {
      if x' == x { assert false; }
      ProdAdds(n, 1, x - x' - 1);
      assert Prod(n, 1) == n;
    }
  }

  lemma TurnServed(c: nat, promised: nat, rr: nat, served: seq<nat>, s: nat, id: nat, g: Queues, q: Queues,
                   g': Queues, q': Queues, reach: nat)
    requires reach > 0 && InTurn(c, promised, rr, served, q, reach) && OneTaken(s, id, g, q, g', q')
    requires Distance(rr, c, |q|) < Distance(rr, s, |q|) ==> Advanced(q[c], q'[c], reach)
    ensures InTurn(c, promised, if |q| > 1 then s + 1 else rr, served + [s], q', reach)
  {
    hide Distance, Ahead, Frames, Prod;
    if i :| 0 <= i < |served| && i <= promised && served[i] == c {
      assert (served + [s])[i] == c;
    } else if s == c {
      assert (served + [s])[|served|] == c;
    } else {
      assert Keeps(c, g, q, g', q');
      Rotations(|q|, Ahead(q[c]), Ahead(q'[c]), reach);
      if Distance(rr, s, |q|) == Distance(rr, c, |q|) { DistanceInjective(rr, s, c, |q|); }
      if Distance(rr, s, |q|) < Distance(rr, c, |q|) { ServingApproaches(rr, s, c, |q|); }
    }
  }

  lemma FairServed(q0: Queues, rr0: nat, rr: nat, served: seq<nat>, s: nat, id: nat, erred: set<nat>, erred': set<nat>,
                   g: Queues, q: Queues, g': Queues, q': Queues, reach: nat)
    requires reach > 0 && Fair(q0, rr0, rr, served, q, erred, reach)
    requires OneTaken(s, id, g, q, g', q') && erred <= erred'
    requires Passed(q, q', rr, Distance(rr, s, |q|), erred', reach)
    ensures Fair(q0, rr0, if |q| > 1 then s + 1 else rr, served + [s], q', erred', reach)
  {
    hide Distance, OneTaken, InTurn, Ahead, Advanced, Turns;
    SameChannels(s, id, g, q, g', q');
    forall c: nat | c < |q| && c !in erred' && Ahead(q0[c]) < |q0[c]|
      ensures InTurn(c, Turns(q0, c, rr0, reach), if |q| > 1 then s + 1 else rr, served + [s], q', reach)
    {
      TurnServed(c, Turns(q0, c, rr0, reach), rr, served, s, id, g, q, g', q', reach);
    }
  }

  lemma SameChannels(s: nat, id: nat, g: Queues, q: Queues, g': Queues, q': Queues)
    requires OneTaken(s, id, g, q, g', q')
    ensures |q| == |q'| && s < |q|
  {}

  lemma FairIdle(q0: Queues, rr0: nat, rr: nat, served: seq<nat>, erred: set<nat>, erred': set<nat>,
                 g: Queues, q: Queues, g': Queues, q': Queues, reach: nat)
    requires reach > 0 && Fair(q0, rr0, rr, served, q, erred, reach) && NoneTaken(g, q, g', q') && erred <= erred'
    ensures Fair(q0, rr0, rr, served, q', erred', reach)
  {
    hide Distance, Frames, Ahead, Prod;
    forall c: nat | c < |q| && c !in erred' && Ahead(q0[c]) < |q0[c]|
      ensures InTurn(c, Turns(q0, c, rr0, reach), rr, served, q', reach)
    {
      assert InTurn(c, Turns(q0, c, rr0, reach), rr, served, q, reach) && Keeps(c, g, q, g', q');
      if Ahead(q[c]) < |q[c]| { Rotations(|q|, Ahead(q[c]), Ahead(q'[c]), reach); }
    }
  }

  /** Fairness, for the caller: served among the first as many waits that returned a frame, and one. */
  lemma ServedInTurn(c: nat, q0: Queues, rr0: nat, rr: nat, served: seq<nat>, q: Queues, erred: set<nat>, reach: nat)
    requires reach > 0 && Fair(q0, rr0, rr, served, q, erred, reach)
    requires c < |q0| && c !in erred && Ahead(q0[c]) < |q0[c]| && |served| > Turns(q0, c, rr0, reach)
    ensures c in served[..Turns(q0, c, rr0, reach) + 1]
  {
    hide Turns;
    var promised := Turns(q0, c, rr0, reach);
    assert InTurn(c, promised, rr, served, q, reach);
    var i :| 0 <= i < |served| && i <= promised && served[i] == c;
    assert served[..promised + 1][i] == c;
  }

  lemma FairAtFirst(q: Queues, rr: nat, erred: set<nat>, reach: nat)
    requires reach > 0
    ensures Fair(q, rr, rr, [], q, erred, reach)
  {}

  // ---- a world in which only time passes --------------------------------------------------------------

  predicate Uneventful(t: Tick) {
    t.fault == Fine && forall c :: 0 <= c < |t.arriving| ==> t.arriving[c] == []
  }

  predicate Calm(ticks: seq<Tick>, n: nat) { n <= |ticks| && forall i :: 0 <= i < n ==> Uneventful(ticks[i]) }

  lemma UneventfulGrown(q: Queues, t: Tick)
    requires Uneventful(t)
    ensures Grown(q, t) == q
  {
    assert forall c :: 0 <= c < |q| ==> Grown(q, t)[c] == q[c] + [] == q[c];
  }

  /** The time the first `n` ticks take. */
  function Spent(ticks: seq<Tick>, n: nat): (r: real)
    requires n <= |ticks|
    ensures r >= 0.0
  {
    if n == 0 then 0.0 else Spent(ticks, n - 1) + ticks[n - 1].elapsed
  }

  lemma SpentNext(ticks: seq<Tick>, n: nat)
    requires n < |ticks|
    ensures Spent(ticks, n + 1) == Spent(ticks, n) + ticks[n].elapsed
  {}

  lemma {:induction false} SpentGrows(ticks: seq<Tick>, a: nat, b: nat)
    requires a <= b <= |ticks|
    ensures Spent(ticks, a) <= Spent(ticks, b)
  {
    if a < b { SpentGrows(ticks, a, b - 1); }
  }

  lemma {:induction false} NoneSpent(ticks: seq<Tick>, n: nat)
    requires n <= |ticks| && forall i :: 0 <= i < n ==> ticks[i].elapsed == 0.0
    ensures Spent(ticks, n) == 0.0
  {
    if n > 0 { NoneSpent(ticks, n - 1); }
  }

  predicate AllEmpty(q: Queues) { forall c :: 0 <= c < |q| ==> q[c] == [] }

  /** The ticks a round has used before its k-th look, the clock read between looks where there is a budget. */
  function TicksBefore(k: nat, budgeted: bool): nat { if k == 0 then 0 else if budgeted then 2 * k - 1 else k }

  function LookTick(k: nat, budgeted: bool): nat { if budgeted then 2 * k else k }

  /** What a round brings when nothing else happens, from the k-th look on: the first frame a look comes to. */
  function RoundOf(q: Queues, rr: nat, k: nat, ticks: seq<Tick>, budgeted: bool): Got
    decreases |q| - k
  {
    if k >= |q| || LookTick(k, budgeted) >= |ticks| then Nothing
    else
      var c := Slot(rr, k, |q|);
      if FrameWithin(q[c], ticks[LookTick(k, budgeted)].reach) then
        AheadIsFirst(q[c]);
        Took(c, q[c][Ahead(q[c])].id)
      else RoundOf(q, rr, k + 1, ticks, budgeted)
  }

  /** What a look at channel `c` that reads `bound` records brings, exactly. */
  predicate LooksAt(q: Queues, c: nat, bound: nat, p: Poll, q': Queues)
    requires c < |q|
  {
    && |q'| == |q| && (forall j :: 0 <= j < |q| && j != c ==> q'[j] == q[j])
    && (p.HasFrame? <==> FrameWithin(q[c], bound)) && !p.AnError?
    && (p.HasFrame? ==> q[c][Ahead(q[c])] == Frame(p.id))
    && (p.NoFrame? ==> (p.spent <==> |q[c]| >= bound) && (q[c] == [] ==> q'[c] == []))
  }

  /** Nothing but time passes during a round, and its last look is in time. */
  predicate Quiet(channels: nat, timeout: real, deadline: real, ticks: seq<Tick>, clock: real) {
    && Calm(ticks, TicksBefore(channels, timeout > 0.0))
    && (timeout > 0.0 ==> clock + Spent(ticks, TicksBefore(channels, true)) < deadline)
  }

  /** A quiet round after `k` looks that brought nothing. */
  ghost predicate SoFar(k: nat, rr: nat, budgeted: bool, q0: Queues, ticks0: seq<Tick>,
                        q: Queues, ticks: seq<Tick>, spent: bool)
  {
    && k <= |q0| == |q| && TicksBefore(k, budgeted) <= |ticks0| && ticks == ticks0[TicksBefore(k, budgeted)..]
    && RoundOf(q0, rr, 0, ticks0, budgeted) == RoundOf(q0, rr, k, ticks0, budgeted)
    && (forall c: nat :: c < |q| && Distance(rr, c, |q|) >= k ==> q[c] == q0[c])
    && (AllEmpty(q0) ==> q == q0 && !spent)
  }

  /** A round's beginning. */
  datatype Start = Start(rr: nat, timeout: real, deadline: real,
                         gone: Queues, queues: Queues, ticks: seq<Tick>, clock: real)

  ghost predicate QuietRound(s: Start) {
    && Quiet(|s.queues|, s.timeout, s.deadline, s.ticks, s.clock)
    && forall i :: 0 <= i < |s.ticks| ==> s.ticks[i].reach > 0
  }

  /** The same of a round's beginning, if it is a quiet one. */
  ghost predicate QuietlySoFar(s: Start, k: nat, q: Queues, ticks: seq<Tick>, clock: real, spent: bool) {
    QuietRound(s) ==>
      && SoFar(k, s.rr, s.timeout > 0.0, s.queues, s.ticks, q, ticks, spent)
      && clock == s.clock + Spent(s.ticks, TicksBefore(k, s.timeout > 0.0))
  }

  /** The ticks a round's k-th look finds, the clock read first where it is. */
  function Rest(k: nat, budgeted: bool, ticks: seq<Tick>): seq<Tick> {
    if budgeted && k > 0 && ticks != [] then ticks[1..] else ticks
  }

  /** Nothing but time passes during that look, and it is in time. */
  predicate QuietLookNext(k: nat, budgeted: bool, ticks: seq<Tick>, clock: real, deadline: real) {
    && Rest(k, budgeted, ticks) != [] && Uneventful(Rest(k, budgeted, ticks)[0])
    && (budgeted && k > 0 ==> ticks != [] && Uneventful(ticks[0]) && clock + ticks[0].elapsed < deadline)
  }

  /** The time it takes, the reading of the clock first. */
  function LookTime(k: nat, budgeted: bool, ticks: seq<Tick>): real
    requires Rest(k, budgeted, ticks) != []
  {
    (if budgeted && k > 0 then ticks[0].elapsed else 0.0) + Rest(k, budgeted, ticks)[0].elapsed
  }

  /** A suffix's own ticks and suffixes. */
  lemma Suffix(ticks0: seq<Tick>, at: nat, ticks: seq<Tick>)
    requires at < |ticks0| && ticks == ticks0[at..]
    ensures ticks != [] && ticks[0] == ticks0[at] && ticks[1..] == ticks0[at + 1..]
  {}

  /** Where the k-th look stands among a round's ticks. */
  lemma QuietPlace(k: nat, n: nat, budgeted: bool, ticks0: seq<Tick>, ticks: seq<Tick>)
    requires k < n && TicksBefore(n, budgeted) <= |ticks0| && ticks == ticks0[TicksBefore(k, budgeted)..]
    ensures TicksBefore(k + 1, budgeted) == LookTick(k, budgeted) + 1 <= TicksBefore(n, budgeted)
    ensures Rest(k, budgeted, ticks) == ticks0[LookTick(k, budgeted)..] != [] && ticks != []
    ensures ticks[0] == ticks0[TicksBefore(k, budgeted)]
  {
    Suffix(ticks0, TicksBefore(k, budgeted), ticks);
  }

  /** How long it takes, without a reading before it. */
  lemma TimeAlone(k: nat, budgeted: bool, ticks0: seq<Tick>, ticks: seq<Tick>)
    requires !(budgeted && k > 0) && LookTick(k, budgeted) < |ticks0|
    requires ticks == ticks0[LookTick(k, budgeted)..]
    ensures Spent(ticks0, TicksBefore(k + 1, budgeted))
         == Spent(ticks0, TicksBefore(k, budgeted)) + LookTime(k, budgeted, ticks)
  {
    SpentNext(ticks0, TicksBefore(k, budgeted));
    hide Spent;
  }

  /** And with one. */
  lemma TimeWithReading(k: nat, n: nat, ticks0: seq<Tick>, ticks: seq<Tick>)
    requires 0 < k < n && TicksBefore(n, true) <= |ticks0| && ticks == ticks0[TicksBefore(k, true)..]
    requires Rest(k, true, ticks) == ticks0[LookTick(k, true)..]
    ensures Rest(k, true, ticks) != [] && ticks != []
    ensures Spent(ticks0, TicksBefore(k + 1, true)) == Spent(ticks0, TicksBefore(k, true)) + LookTime(k, true, ticks)
    ensures Spent(ticks0, TicksBefore(k, true)) + ticks[0].elapsed <= Spent(ticks0, TicksBefore(n, true))
  {
    hide Spent;
    SpentTwo(ticks0, 2 * k - 1, TicksBefore(n, true));
    assert TicksBefore(k, true) == 2 * k - 1 && TicksBefore(k + 1, true) == 2 * k + 1;
    assert ticks[0] == ticks0[2 * k - 1] && ticks0[2 * k..][0] == ticks0[2 * k];
  }

  lemma SpentTwo(ticks: seq<Tick>, at: nat, last: nat)
    requires at + 2 <= last <= |ticks|
    ensures Spent(ticks, at + 2) == Spent(ticks, at) + ticks[at].elapsed + ticks[at + 1].elapsed
    ensures Spent(ticks, at) + ticks[at].elapsed <= Spent(ticks, last)
  {
    SpentNext(ticks, at);
    SpentNext(ticks, at + 1);
    SpentGrows(ticks, at + 1, last);
    hide Spent;
  }

  lemma QuietTick(k: nat, rr: nat, budgeted: bool, q0: Queues, ticks0: seq<Tick>, c0: real, deadline: real,
                  q: Queues, ticks: seq<Tick>, spent: bool, clock: real)
    requires SoFar(k, rr, budgeted, q0, ticks0, q, ticks, spent) && k < |q0|
    requires Calm(ticks0, TicksBefore(|q0|, budgeted)) && clock == c0 + Spent(ticks0, TicksBefore(k, budgeted))
    requires budgeted ==> c0 + Spent(ticks0, TicksBefore(|q0|, true)) < deadline
    ensures QuietLookNext(k, budgeted, ticks, clock, deadline) && LookTick(k, budgeted) < |ticks0|
    ensures Rest(k, budgeted, ticks)[0] == ticks0[LookTick(k, budgeted)]
    ensures Rest(k, budgeted, ticks)[1..] == ticks0[LookTick(k, budgeted) + 1..]
    ensures TicksBefore(k + 1, budgeted) == LookTick(k, budgeted) + 1 <= |ticks0|
    ensures c0 + Spent(ticks0, TicksBefore(k + 1, budgeted)) == clock + LookTime(k, budgeted, ticks)
  {
    QuietPlace(k, |q0|, budgeted, ticks0, ticks);
    if budgeted && k > 0 { TimeWithReading(k, |q0|, ticks0, ticks); } else { TimeAlone(k, budgeted, ticks0, ticks); }
    hide RoundOf, Distance, AllEmpty, Spent, LookTime, Rest;
  }

  lemma QuietLook(k: nat, rr: nat, budgeted: bool, q0: Queues, ticks0: seq<Tick>,
                  q: Queues, ticks: seq<Tick>, spent: bool, p: Poll, q': Queues)
    requires SoFar(k, rr, budgeted, q0, ticks0, q, ticks, spent) && k < |q0|
    requires LookTick(k, budgeted) < |ticks0| && ticks0[LookTick(k, budgeted)].reach > 0
    requires LooksAt(q, Slot(rr, k, |q|), ticks0[LookTick(k, budgeted)].reach, p, q')
    ensures !p.AnError?
    ensures p.HasFrame? ==> RoundOf(q0, rr, 0, ticks0, budgeted) == Took(Slot(rr, k, |q|), p.id)
    ensures p.NoFrame? ==>
              SoFar(k + 1, rr, budgeted, q0, ticks0, q', ticks0[LookTick(k, budgeted) + 1..], spent || p.spent)
    ensures p.NoFrame? ==> SoFar(k + 1, rr, budgeted, q0, ticks0, q', ticks0[LookTick(k, budgeted) + 1..], spent)
  {
    SlotAt(rr, k, |q|);
    var c := Slot(rr, k, |q|);
    assert q[c] == q0[c];
    hide Distance;
    if p.NoFrame? && AllEmpty(q0) {
      assert q' == q0;
    }
  }

  lemma QuietTurn(k: nat, s: Start, q: Queues, ticks: seq<Tick>, clock: real, spent: bool)
    requires QuietlySoFar(s, k, q, ticks, clock, spent) && k < |s.queues|
    ensures QuietRound(s) ==> QuietLookNext(k, s.timeout > 0.0, ticks, clock, s.deadline)
  {
    if QuietRound(s) {
      QuietTick(k, s.rr, s.timeout > 0.0, s.queues, s.ticks, s.clock, s.deadline, q, ticks, spent, clock);
    }
  }

  /** One look further: what it found is what such a round brings, or there is more of the round to come. */
  lemma QuietTurned(k: nat, s: Start, q: Queues, ticks: seq<Tick>, clock: real, spent: bool,
                    look: Turn, p: Poll, q': Queues, ticks': seq<Tick>, clock': real, sees: bool)
    requires QuietlySoFar(s, k, q, ticks, clock, spent) && k < |s.queues| == |q|
    requires QuietLookNext(k, s.timeout > 0.0, ticks, clock, s.deadline) ==>
               && look == Looking && ticks' == Rest(k, s.timeout > 0.0, ticks)[1..]
               && clock' == clock + LookTime(k, s.timeout > 0.0, ticks)
               && LooksAt(q, Slot(s.rr, k, |q|), Rest(k, s.timeout > 0.0, ticks)[0].reach, p, q')
    requires sees ==> p.NoFrame? && p.spent
    ensures QuietRound(s) ==> look == Looking && !p.AnError?
    ensures QuietRound(s) && p.HasFrame? ==> AsRoundOf(Took(Slot(s.rr, k, |q|), p.id),
              spent || sees, s.rr, s.timeout, s.queues, s.ticks, q', ticks')
    ensures look == Looking && !p.HasFrame? ==> QuietlySoFar(s, k + 1, q', ticks', clock', spent || sees)
  {
    hide SoFar, LooksAt, Uneventful, Calm, RoundOf, Slot;
    if QuietRound(s) {
      QuietTick(k, s.rr, s.timeout > 0.0, s.queues, s.ticks, s.clock, s.deadline, q, ticks, spent, clock);
      QuietLook(k, s.rr, s.timeout > 0.0, s.queues, s.ticks, q, ticks, spent, p, q');
      hide Rest, LookTime, Spent, TicksBefore, LookTick;
    }
  }

  /** What a quiet round brought. */
  ghost predicate AsRoundOf(got: Got, spent: bool, rr: nat, timeout: real, q0: Queues, ticks0: seq<Tick>,
                            q: Queues, ticks: seq<Tick>)
  {
    && got == RoundOf(q0, rr, 0, ticks0, timeout > 0.0)
    && (got.Nothing? ==>
        var used := TicksBefore(|q0|, timeout > 0.0); used <= |ticks0| && ticks == ticks0[used..])
    && (got.Nothing? && AllEmpty(q0) ==> !spent && q == q0)
  }

  lemma {:induction false} EmptyRound(q: Queues, rr: nat, k: nat, ticks: seq<Tick>, budgeted: bool)
    requires AllEmpty(q)
    ensures RoundOf(q, rr, k, ticks, budgeted) == Nothing
    decreases |q| - k
  {
    if k < |q| && LookTick(k, budgeted) < |ticks| {
      hide Slot;
      EmptyRound(q, rr, k + 1, ticks, budgeted);
    }
  }

  /** A wait whose first round is quiet: the clock is read once before it. */
  predicate QuietWait(ticks: seq<Tick>, channels: nat, timeout: real) {
    ticks != [] && Uneventful(ticks[0]) && Quiet(channels, timeout, timeout, ticks[1..], 0.0)
  }

  /** A wait whose deadline falls between the two readings after a quiet first round. */
  predicate LateWait(ticks: seq<Tick>, channels: nat, timeout: real) {
    ticks != [] && Uneventful(ticks[0]) && LateSlice(ticks[1..], channels, timeout)
  }

  lemma CalmIsQuiet(n: nat, timeout: real, deadline: real, ticks: seq<Tick>, clock: real)
    requires deadline == clock + timeout && n > 1
    ensures LateSlice(ticks, n, timeout) ==> Quiet(n, timeout, deadline, ticks, clock)
    ensures Quiet(n, timeout, timeout, ticks, 0.0) <==> Quiet(n, timeout, deadline, ticks, clock)
    ensures Quiet(n, timeout, deadline, ticks, clock) ==> ticks != []
  {}

  /** What is known after a wait's first round. */
  lemma AfterRound(first: bool, got: Got, spent: bool, over: bool, rr: nat, timeout: real, deadline: real,
                   q0: Queues, t0: seq<Tick>, c0: real, q: Queues, ticks: seq<Tick>, clock: real)
    requires first && Quiet(|q0|, timeout, deadline, t0, c0) ==>
              && !over && AsRoundOf(got, spent, rr, timeout, q0, t0, q, ticks)
              && (got.Nothing? ==> clock == c0 + Spent(t0, TicksBefore(|q0|, timeout > 0.0)))
    requires |q0| > 1 && deadline == c0 + timeout
    ensures first && LateSlice(t0, |q0|, timeout) && AllEmpty(q0) ==>
              && got == Nothing && !over && !spent && |ticks| > 1
              && clock + ticks[0].elapsed < deadline < clock + ticks[0].elapsed + ticks[1].elapsed
    ensures first && Quiet(|q0|, timeout, deadline, t0, c0) ==> !over && got == RoundOf(q0, rr, 0, t0, timeout > 0.0)
  {
    CalmIsQuiet(|q0|, timeout, deadline, t0, c0);
    if first && LateSlice(t0, |q0|, timeout) && AllEmpty(q0) {
      EmptyRound(q0, rr, 0, t0, true);
      var used := 2 * |q0| - 1;
      assert ticks == t0[used..] && ticks[0] == t0[used] && ticks[1] == t0[used + 1];
      assert Spent(t0, used + 1) == Spent(t0, used) + t0[used].elapsed;
      assert Spent(t0, used + 2) == Spent(t0, used + 1) + t0[used + 1].elapsed;
    }
  }

  // ---- the account of a round -----------------------------------------------------------------

  /** After `k` looks no frame was found: none is lost, and none was nearer within the bound. */
  ghost predicate Unfound(s: Start, k: nat, g: Queues, q: Queues, ticks: seq<Tick>, clock: real,
                          erred: set<nat>, reach: nat, spent: bool)
  {
    && |s.queues| == |q| && NoneTaken(s.gone, s.queues, g, q) && Passed(s.queues, q, s.rr, k, erred, reach)
    && QuietlySoFar(s, k, q, ticks, clock, spent)
  }

  /** A frame was found. */
  ghost predicate Found(s: Start, got: Got, g: Queues, q: Queues, ticks: seq<Tick>, clock: real,
                        erred: set<nat>, reach: nat, spent: bool)
    requires got.Took?
  {
    && got.channel < |s.queues| == |q| && Result(got, s.gone, s.queues, g, q)
    && Passed(s.queues, q, s.rr, Distance(s.rr, got.channel, |s.queues|), erred, reach)
    && (QuietRound(s) ==> AsRoundOf(got, spent, s.rr, s.timeout, s.queues, s.ticks, q, ticks))
  }

  /** Something ended the round: nothing is lost, and it was not a quiet one. */
  ghost predicate CutShort(s: Start, g: Queues, q: Queues) {
    NoneTaken(s.gone, s.queues, g, q) && !QuietRound(s)
  }

  lemma RoundBegins(s: Start, erred: set<nat>, reach: nat)
    requires |s.gone| == |s.queues|
    ensures Unfound(s, 0, s.gone, s.queues, s.ticks, s.clock, erred, reach, false)
  {
    NothingHappened(s.gone, s.queues);
    NoneYet(s.queues, s.queues, s.rr, erred, reach);
  }

  lemma RoundEnds(s: Start, g: Queues, q: Queues, ticks: seq<Tick>, clock: real,
                  erred: set<nat>, reach: nat, spent: bool)
    requires Unfound(s, |s.queues|, g, q, ticks, clock, erred, reach, spent)
    ensures Result(Nothing, s.gone, s.queues, g, q) && Passed(s.queues, q, s.rr, |q|, erred, reach)
    ensures QuietRound(s) ==>
              && clock == s.clock + Spent(s.ticks, TicksBefore(|q|, s.timeout > 0.0))
              && AsRoundOf(Nothing, spent, s.rr, s.timeout, s.queues, s.ticks, q, ticks)
  {
    hide NoneTaken, Passed;
  }

  lemma WasFound(s: Start, got: Got, g: Queues, q: Queues, ticks: seq<Tick>, clock: real,
                 erred: set<nat>, reach: nat, spent: bool)
    requires got.Took? && Found(s, got, g, q, ticks, clock, erred, reach, spent)
    ensures got.channel < |q| && Result(got, s.gone, s.queues, g, q)
    ensures Passed(s.queues, q, s.rr, Distance(s.rr, got.channel, |q|), erred, reach)
    ensures QuietRound(s) ==> AsRoundOf(got, spent, s.rr, s.timeout, s.queues, s.ticks, q, ticks)
  {}

  lemma FoundAmong(s: Start, got: Got, g: Queues, q: Queues, ticks: seq<Tick>, clock: real,
                   erred: set<nat>, reach: nat, spent: bool)
    requires got.Took? && Found(s, got, g, q, ticks, clock, erred, reach, spent)
    ensures got.channel < |q|
  {}

  lemma WasCutShort(s: Start, got: Got, g: Queues, q: Queues)
    requires CutShort(s, g, q) && !got.Took?
    ensures Result(got, s.gone, s.queues, g, q) && !QuietRound(s)
  {}

  /** The deadline falls between the reading that decides to sleep and the one that says for how long. */
  predicate LateSlice(ticks: seq<Tick>, channels: nat, timeout: real) {
    && timeout > 0.0 && channels > 0 && Calm(ticks, 2 * channels - 1) && |ticks| > 2 * channels
    && Spent(ticks, 2 * channels) < timeout < Spent(ticks, 2 * channels + 1)
  }

  // ---- the wait -------------------------------------------------------------------------------

  class Waiter {
    const lookers: set<nat>           // the channels that can be looked at, not only received from
    const reach: nat                  // every look reads as many records, if they are there and no frame comes first
    var clock: real
    var script: seq<Tick>
    var queues: Queues
    ghost var gone: Queues  // what was taken off each channel, in order
    ghost var erred: set<nat>         // the channels that ever answered an error
    ghost var fatal: bool             // whether one of those errors will not clear
    ghost var read: real              // the clock as last read
    ghost var did: seq<Did>

    ghost predicate Valid()
      reads this
    {
      && |gone| == |queues| && read <= clock && (forall i :: 0 <= i < |did| ==> InTime(|queues|, did[i]))
      && reach > 0 && forall i :: 0 <= i < |script| ==> script[i].reach >= reach
    }

    /** What every action leaves true of what was there before it. */
    twostate predicate Onward()
      reads this
    {
      && |queues| == |old(queues)| && |script| <= |old(script)| && clock >= old(clock)
      && erred >= old(erred) && (old(fatal) ==> fatal) && old(did) <= did
    }

    constructor (queued: Queues, ticks: seq<Tick>, canLook: set<nat>, bound: nat)
      requires bound > 0 && forall i :: 0 <= i < |ticks| ==> ticks[i].reach >= bound
      ensures Valid() && queues == queued && script == ticks && lookers == canLook && reach == bound && did == []
      ensures clock == 0.0
      ensures forall c :: 0 <= c < |gone| ==> gone[c] == []
    {
      lookers, reach, clock, script, read, did, erred, fatal := canLook, bound, 0.0, ticks, 0.0, [], {}, false;
      queues := queued;
      gone := seq(|queued|, _ => []);
    }

    /** The world goes on. */
    method Pass() returns (t: Tick)
      requires Valid() && script != []
      modifies this`clock, this`script, this`queues
      ensures Valid() && Onward() && t == old(script)[0] && script == old(script)[1..]
      ensures clock == old(clock) + t.elapsed && queues == Grown(old(queues), t)
      ensures NoneTaken(gone, old(queues), gone, queues)
    {
      hide NoneTaken;
      t := script[0];
      MoreArrived(gone, queues, t);
      clock, script, queues := clock + t.elapsed, script[1..], Grown(queues, t);
    }

    method Now() returns (now: real)
      requires Valid()
      modifies this`clock, this`script, this`queues, this`read
      ensures Valid() && Onward() && now == read == clock
      ensures NoneTaken(gone, old(queues), gone, queues)
      ensures old(script) != [] ==> script == old(script)[1..] && clock == old(clock) + old(script)[0].elapsed
      ensures old(script) != [] && Uneventful(old(script)[0]) ==> queues == old(queues)
    {
      hide NoneTaken;
      NothingHappened(gone, queues);
      if script != [] {
        ghost var q0 := queues;
        var t := Pass();
        if Uneventful(t) { UneventfulGrown(q0, t); }
      }
      now := clock;
      read := now;
    }

    method Sleep(ms: real, ghost deadline: real)
      requires Valid() && InTime(|queues|, Slept(read, ms, deadline))
      modifies this`clock, this`script, this`queues, this`did
      ensures Valid() && Onward() && did == old(did) + [Slept(read, ms, deadline)] && clock >= old(clock) + ms
      ensures NoneTaken(gone, old(queues), gone, queues)
    {
      hide NoneTaken;
      NothingHappened(gone, queues);
      did := did + [Slept(read, ms, deadline)];
      if script != [] { var _ := Pass(); }
      clock := clock + ms;
    }

    /** One call for channel `c`, waiting `asked` ms at most: its first frame, past what is not one. */
    method Look(c: nat, asked: int, ghost deadline: real, ghost budget: real) returns (p: Poll)
      requires Valid() && c < |queues| && script != []
      requires InTime(|queues|, Looked(c, read, deadline, budget, asked, false))
      modifies this`clock, this`script, this`queues, this`gone, this`erred, this`fatal, this`did
      ensures Valid() && Onward() && script == old(script)[1..] && clock == old(clock) + old(script)[0].elapsed
      ensures did == old(did) + [Looked(c, read, deadline, budget, asked, p.NoFrame? && p.spent && c in lookers)]
      ensures p.HasFrame? ==> OneTaken(c, p.id, old(gone), old(queues), gone, queues)
      ensures !p.HasFrame? ==> NoneTaken(old(gone), old(queues), gone, queues)
      ensures p.NoFrame? ==> Advanced(old(queues)[c], queues[c], reach)
      ensures p.AnError? ==> c in erred && (p.fatal ==> fatal)
      ensures Uneventful(old(script)[0]) ==> LooksAt(old(queues), c, old(script)[0].reach, p, queues)
    {
      hide NoneTaken, OneTaken, Keeps, Advanced, FrameWithin, LooksAt;
      SameCall(|queues|, c, read, deadline, budget, asked);
      ghost var q0 := queues;
      var t := Pass();
      ghost var q1 := queues;
      if Uneventful(t) { UneventfulGrown(q0, t); }
      if t.fault != Fine {
        erred, fatal := erred + {c}, fatal || t.fault == Fatal;
        did := did + [Looked(c, read, deadline, budget, asked, false)];
        return AnError(t.fault == Fatal);
      }
      p := TakeFrom(c, t.reach);
      did := did + [Looked(c, read, deadline, budget, asked, p.NoFrame? && p.spent && c in lookers)];
      if p.HasFrame? {
        OneTakenAfter(c, p.id, old(gone), q0, old(gone), q1, gone, queues);
      } else {
        NoneTakenTwice(old(gone), q0, old(gone), q1, gone, queues);
        AdvancedBefore(old(gone), q0, old(gone), q1, queues[c], c, reach);
      }
    }

    /** Takes the first frame off channel `c` if it is among the first `bound` records. */
    method TakeFrom(c: nat, bound: nat) returns (p: Poll)
      requires Valid() && c < |queues| && bound >= reach
      modifies this`queues, this`gone
      ensures Valid() && |queues| == |old(queues)| && !p.AnError?
      ensures p.HasFrame? ==> OneTaken(c, p.id, old(gone), old(queues), gone, queues)
      ensures !p.HasFrame? ==> NoneTaken(old(gone), old(queues), gone, queues)
      ensures p.NoFrame? ==> Advanced(old(queues)[c], queues[c], reach)
      ensures LooksAt(old(queues), c, bound, p, queues)
    {
      hide NoneTaken, OneTaken, Keeps;
      var q := queues[c];
      var i := 0;
      while i < |q| && i < bound && q[i].NotFrame?
        invariant 0 <= i <= |q| && i <= bound && forall j :: 0 <= j < i ==> q[j].NotFrame?
      {
        i := i + 1;
      }
      AheadPast(q, i);
      LookedPast(gone, queues, c, i);
      queues, gone := queues[c := q[i..]], gone[c := gone[c] + q[..i]];
      p := NoFrame(i == bound);
      if i < |q| && i < bound {
        p := HasFrame(q[i].id);
        ghost var g1, q1 := gone, queues;
        TookHead(gone, queues, c);
        queues, gone := queues[c := q[i..][1..]], gone[c := gone[c] + [q[i]]];
        OneTakenAfter(c, p.id, old(gone), old(queues), g1, q1, gone, queues);
      }
    }

    /** Where the run is to wait again at once: records are queued behind the look's bound, or the wait is longer
        than one call can be asked for. */
    predicate AtOnceAgain(timeout: real, spent: bool) {
      (Trunc(timeout) == 0 && 0 in lookers && spent) || Trunc(timeout) > MAX_WAIT_MS
    }

    /** The only channel: the driver waits, for the whole milliseconds of it; the rest is slept. */
    method WaitSingle(timeout: real, deadline: real) returns (got: Got, ghost seen: Poll)
      requires Valid() && |queues| == 1 && deadline == read + timeout
      modifies this`clock, this`script, this`queues, this`gone, this`erred, this`fatal, this`did, this`read
      ensures Valid() && Onward() && Result(got, old(gone), old(queues), gone, queues)
      ensures got.Took? ==> got.channel == 0 && TookBy(got, deadline, timeout)
      ensures got.Nothing? ==> 0 in erred || Advanced(old(queues)[0], queues[0], reach)
      ensures got.Nothing? ==> !seen.HasFrame?
      ensures got.Nothing? && seen.NoFrame? ==>
                if AtOnceAgain(timeout, seen.spent) then |did| == |old(did)| + 1 else clock >= deadline
      ensures got.Nothing? && seen.AnError? ==> 0 in erred && (clock >= deadline || clock >= read + ERROR_REST_MS)
      ensures got.Raised? ==> fatal
      ensures !got.Refused?
      ensures old(script) != [] && Uneventful(old(script)[0]) && FrameWithin(old(queues)[0], old(script)[0].reach) ==>
                got.Took? && clock == old(clock) + old(script)[0].elapsed
    {
      hide NoneTaken, OneTaken, InTime, Advanced, FrameWithin, Calm;
      NothingHappened(gone, queues);
      seen := NoFrame(false);
      if script == [] { return Stopped, seen; }
      var whole := Trunc(timeout);
      var looking := whole == 0 && 0 in lookers;
      var asked := if looking then 0 else if whole < MAX_WAIT_MS then whole else MAX_WAIT_MS;
      WholePart(0, read, deadline, timeout, asked);
      var p := Look(0, asked, deadline, timeout);
      seen := p;
      if p.HasFrame? { return Took(0, p.id), seen; }
      if p.AnError? && p.fatal { return Raised, seen; }
      got := Nothing;
      if p.NoFrame? && ((looking && p.spent) || whole > MAX_WAIT_MS) { return; }
      ghost var g1, q1 := gone, queues;
      var now := Now();
      var rest := deadline - now;
      if p.AnError? && rest > ERROR_REST_MS { rest := ERROR_REST_MS; }
      NoneTakenTwice(old(gone), old(queues), g1, q1, gone, queues);
      if rest > 0.0 {
        ghost var q2 := queues;
        Within(read, rest, deadline);
        Sleep(rest, deadline);
        NoneTakenTwice(old(gone), old(queues), gone, q2, gone, queues);
        NoneTakenTwice(g1, q1, gone, q2, gone, queues);
      }
      if p.NoFrame? { AdvancedStill(g1, q1, gone, queues, old(queues)[0], 0, reach); }
    }

    /** The frame returned was taken by the last call, made in time of the wait's own deadline. */
    ghost predicate TookBy(got: Got, deadline: real, timeout: real)
      requires got.Took?
      reads this
    {
      did != [] && did[|did| - 1].Looked? &&
      did[|did| - 1] == Looked(got.channel, read, deadline, timeout, did[|did| - 1].asked, false)
    }

    /** The k-th look of a round, the clock read before it where there is a budget and it is not the first. */
    method LookInTurn(rr: nat, k: nat, timeout: real, deadline: real) returns (look: Turn, p: Poll)
      requires Valid() && k < |queues| != 1 && TurnInTime(k, timeout, deadline, read)
      modifies this`clock, this`script, this`queues, this`gone, this`erred, this`fatal, this`did, this`read
      ensures Valid() && Onward() && (look == Looking ==> |script| < |old(script)|)
      ensures look == Looking ==> TurnInTime(k + 1, timeout, deadline, read)
      ensures look == Looking ==> clock >= old(clock) + old(script)[0].elapsed
      ensures look == Looking && k > 0 && timeout > 0.0 ==> read >= old(clock)
      ensures look != Looking ==> did == old(did)
      ensures look == Looking ==>
                && |did| == |old(did)| + 1 && did[|old(did)|].Looked?
                && did[|old(did)|].short == (p.NoFrame? && p.spent && Slot(rr, k, |queues|) in lookers)
      ensures look == Late ==> timeout > 0.0 && read >= deadline
      ensures look == Looking && p.HasFrame? ==>
                OneTaken(Slot(rr, k, |queues|), p.id, old(gone), old(queues), gone, queues)
      ensures look == Looking && p.HasFrame? ==> TookBy(Took(Slot(rr, k, |queues|), p.id), deadline, timeout)
      ensures look != Looking || !p.HasFrame? ==> NoneTaken(old(gone), old(queues), gone, queues)
      ensures look == Looking && p.NoFrame? ==>
                Advanced(old(queues)[Slot(rr, k, |queues|)], queues[Slot(rr, k, |queues|)], reach)
      ensures look == Looking && p.AnError? ==> Slot(rr, k, |queues|) in erred && (p.fatal ==> fatal)
      ensures var rest := Rest(k, timeout > 0.0, old(script));
              QuietLookNext(k, timeout > 0.0, old(script), old(clock), deadline) ==>
                && look == Looking && script == rest[1..]
                && clock == old(clock) + LookTime(k, timeout > 0.0, old(script))
                && LooksAt(old(queues), Slot(rr, k, |queues|), rest[0].reach, p, queues)
    {
      hide NoneTaken, OneTaken, InTime, Advanced, FrameWithin, Uneventful, LooksAt;
      NothingHappened(gone, queues);
      look, p := Ended, NoFrame(false);
      if k > 0 && timeout > 0.0 {
        var now := Now();
        if now >= deadline { return Late, p; }
      }
      if script == [] { return; }
      var i := Slot(rr, k, |queues|);
      ghost var q1 := queues;
      AtOnce(|queues|, i, read, deadline, timeout);
      p := Look(i, 0, deadline, timeout);
      look := Looking;
      if p.HasFrame? {
        OneTakenAfter(i, p.id, old(gone), old(queues), old(gone), q1, gone, queues);
      } else {
        NoneTakenTwice(old(gone), old(queues), old(gone), q1, gone, queues);
        if p.NoFrame? { AdvancedBefore(old(gone), old(queues), old(gone), q1, queues[i], i, reach); }
      }
    }

    /** That look, in the account of its round. */
    method RoundLook(ghost start: Start, k: nat, rr: nat, timeout: real, deadline: real, before: bool)
      returns (look: Turn, p: Poll, spent: bool)
      requires Valid() && k < |queues| != 1 && TurnInTime(k, timeout, deadline, read)
      requires start.rr == rr && start.timeout == timeout && start.deadline == deadline
      requires Unfound(start, k, gone, queues, script, clock, erred, reach, before)
      modifies this`clock, this`script, this`queues, this`gone, this`erred, this`fatal, this`did, this`read
      ensures Valid() && Onward() && (look == Looking ==> |script| < |old(script)|)
      ensures look == Looking ==> TurnInTime(k + 1, timeout, deadline, read)
      ensures look == Looking ==> clock >= old(clock) + old(script)[0].elapsed
      ensures look == Looking && k > 0 && timeout > 0.0 ==> read >= old(clock)
      ensures look != Looking ==> did == old(did) && spent == before
      ensures look == Looking ==>
                |did| == |old(did)| + 1 && did[|old(did)|].Looked? && spent == (before || did[|old(did)|].short)
      ensures look == Late ==> timeout > 0.0 && read >= deadline
      ensures look == Looking && p.HasFrame? ==>
                Found(start, Took(Slot(rr, k, |queues|), p.id), gone, queues, script, clock, erred, reach, spent)
      ensures look == Looking && p.HasFrame? ==> TookBy(Took(Slot(rr, k, |queues|), p.id), deadline, timeout)
      ensures look == Looking && !p.HasFrame? ==>
                Unfound(start, k + 1, gone, queues, script, clock, erred, reach, spent)
      ensures look == Looking && p.AnError? && p.fatal ==> fatal
      ensures look != Looking || p.AnError? ==> CutShort(start, gone, queues)
    {
      hide NoneTaken, OneTaken, Passed, Advanced, FrameWithin, LooksAt, AsRoundOf, Quiet;
      hide TurnInTime, InTime, Valid, TookBy, QuietlySoFar, QuietLookNext, Rest, LookTime, Slot;
      ghost var g1, q1, e1, s1, c1 := gone, queues, erred, script, clock;
      QuietTurn(k, start, q1, s1, c1, before);
      look, p := LookInTurn(rr, k, timeout, deadline);
      var sees := look == Looking && p.NoFrame? && Slot(rr, k, |queues|) in lookers && p.spent;
      spent := before || sees;
      QuietTurned(k, start, q1, s1, c1, before, look, p, queues, script, clock, sees);
      if look == Looking && p.HasFrame? {
        FoundOne(start.gone, start.queues, g1, q1, gone, queues, rr, k, p.id, e1, erred, reach);
      } else if look == Looking {
        FoundNone(start.gone, start.queues, g1, q1, gone, queues, rr, k, e1, erred, reach);
      } else {
        NoneTakenTwice(start.gone, start.queues, g1, q1, gone, queues);
      }
    }

    /** One look at each channel in turn. `over`: a slow look spent the budget. */
    method Round(rr: nat, timeout: real, deadline: real) returns (got: Got, spent: bool, over: bool)
      requires Valid() && |queues| > 1 && LookInTime(deadline - timeout, timeout, read)
      modifies this`clock, this`script, this`queues, this`gone, this`erred, this`fatal, this`did, this`read
      ensures Valid() && Onward() && Result(got, old(gone), old(queues), gone, queues)
      ensures got.Took? ==> got.channel < |queues| && TookBy(got, deadline, timeout)
      ensures got.Took? ==> Passed(old(queues), queues, rr, Distance(rr, got.channel, |queues|), erred, reach)
      ensures got.Took? && got.channel != Slot(rr, 0, |queues|) && timeout > 0.0 ==>
                old(script) != [] && read >= old(clock) + old(script)[0].elapsed
      ensures got.Nothing? && !over ==>
                Passed(old(queues), queues, rr, |queues|, erred, reach) && |script| < |old(script)|
      ensures got.Nothing? && !over ==> TurnInTime(|queues|, timeout, deadline, read)
      ensures got.Nothing? && !over ==> clock >= old(clock) + old(script)[0].elapsed
      ensures over ==> timeout > 0.0 && read >= deadline
      ensures got.Raised? ==> fatal
      ensures spent <==> ShortSince(did, |old(did)|)
      ensures !got.Refused?
      ensures Quiet(|queues|, timeout, deadline, old(script), old(clock)) ==>
                && !over && AsRoundOf(got, spent, rr, timeout, old(queues), old(script), queues, script)
                && (got.Nothing? ==>
                    clock == old(clock) + Spent(old(script), TicksBefore(|queues|, timeout > 0.0)))
    {
      ghost var start := Start(rr, timeout, deadline, gone, queues, script, clock);
      assert TurnInTime(0, timeout, deadline, read);
      assert Quiet(|queues|, timeout, deadline, script, clock) ==> QuietRound(start);
      RoundBegins(start, erred, reach);
      hide TurnInTime, InTime, Valid, TookBy, Unfound, Found;
      hide CutShort, Slot, Quiet, QuietRound, AsRoundOf, Passed, Result, Distance, Spent, TicksBefore;
      got, spent, over := Looks(start, rr, timeout, deadline);
      if got.Took? {
        WasFound(start, got, gone, queues, script, clock, erred, reach, spent);
      } else if got.Nothing? && !over {
        RoundEnds(start, gone, queues, script, clock, erred, reach, spent);
      } else {
        WasCutShort(start, got, gone, queues);
      }
    }

    /** Those looks, in the round's account. */
    method Looks(ghost start: Start, rr: nat, timeout: real, deadline: real) returns (got: Got, spent: bool, over: bool)
      requires Valid() && |queues| > 1 && TurnInTime(0, timeout, deadline, read)
      requires start == Start(rr, timeout, deadline, gone, queues, script, clock)
      requires Unfound(start, 0, gone, queues, script, clock, erred, reach, false)
      modifies this`clock, this`script, this`queues, this`gone, this`erred, this`fatal, this`did, this`read
      ensures Valid() && Onward() && !got.Refused? && (got.Raised? ==> fatal)
      ensures got.Took? ==>
                && got.channel < |queues| && TookBy(got, deadline, timeout)
                && Found(start, got, gone, queues, script, clock, erred, reach, spent)
                && (got.channel != Slot(rr, 0, |queues|) && timeout > 0.0 ==>
                    start.ticks != [] && read >= start.clock + start.ticks[0].elapsed)
      ensures got.Nothing? && !over ==>
                && TurnInTime(|queues|, timeout, deadline, read) && |script| < |start.ticks|
                && clock >= start.clock + start.ticks[0].elapsed
                && Unfound(start, |queues|, gone, queues, script, clock, erred, reach, spent)
      ensures over ==> got.Nothing? && timeout > 0.0 && read >= deadline
      ensures spent <==> ShortSince(did, |old(did)|)
      ensures over || (!got.Nothing? && !got.Took?) ==> CutShort(start, gone, queues)
    {
      NoneShort(did);
      hide TurnInTime, InTime, Valid, TookBy, Unfound, Found, CutShort, Slot;
      spent, over := false, false;
      var n := |queues|;
      var k := 0;
      while k < n
        invariant 0 <= k <= n == |queues| && Valid() && Onward()
        invariant Unfound(start, k, gone, queues, script, clock, erred, reach, spent)
        invariant spent <==> ShortSince(did, |old(did)|)
        invariant TurnInTime(k, timeout, deadline, read)
        invariant k == 0 ==> script == start.ticks && clock == start.clock
        invariant k > 0 ==> |script| < |start.ticks| && clock >= start.clock + start.ticks[0].elapsed
      {
        var look, p;
        ghost var did1 := did;
        look, p, spent := RoundLook(start, k, rr, timeout, deadline, spent);
        if look == Looking {
          assert did == did1 + [did[|did1|]];
          ShortAnd(did1, did[|did1|], |old(did)|);
        }
        if look != Looking { return if look == Late then Nothing else Stopped, spent, look == Late; }
        if p.HasFrame? {
          got := Took(Slot(rr, k, n), p.id);
          FoundAmong(start, got, gone, queues, script, clock, erred, reach, spent);
          return;
        }
        if p.AnError? && p.fatal { return Raised, spent, false; }
        k := k + 1;
      }
      got := Nothing;
    }

    /** Looks again at once if a look stopped at its bound, after a slice of sleep if none did, and
        only before the deadline. The slice is less than nothing exactly if the clock, read before the
        deadline, is past it when read again. */
    method BetweenRounds(spent: bool, deadline: real) returns (b: Between, ghost first: real, ghost second: real)
      requires Valid()
      modifies this`clock, this`script, this`queues, this`did, this`read
      ensures Valid() && Onward() && NoneTaken(gone, old(queues), gone, queues)
      ensures b == Negative <==> first < deadline && !spent && second > deadline
      ensures b == Again ==> read < deadline
      ensures b == Expired ==> read >= deadline
      ensures var slice := if WAIT_SLICE_MS < deadline - second then WAIT_SLICE_MS else deadline - second;
              did == old(did) +
                if first < deadline && !spent && b != Negative then [Slept(second, slice, deadline)] else []
      ensures old(clock) <= first && old(read) <= read
      ensures first >= deadline ==> b == Expired
      ensures old(script) != [] ==> first == old(clock) + old(script)[0].elapsed
      ensures |old(script)| > 1 && first < deadline && !spent ==> second == first + old(script)[1].elapsed
    {
      hide NoneTaken, InTime;
      var now := Now();
      first, second := now, now;
      if now >= deadline { return Expired, first, second; }
      if spent { return Again, first, second; }
      ghost var q1 := queues;
      now := Now();
      second := now;
      NoneTakenTwice(gone, old(queues), gone, q1, gone, queues);
      var slice := if WAIT_SLICE_MS < deadline - now then WAIT_SLICE_MS else deadline - now;
      if slice < 0.0 { return Negative, first, second; }
      ghost var q2 := queues;
      Within(read, slice, deadline);
      Sleep(slice, deadline);
      NoneTakenTwice(gone, old(queues), gone, q2, gone, queues);
      ghost var q3 := queues;
      now := Now();
      NoneTakenTwice(gone, old(queues), gone, q3, gone, queues);
      b := if now >= deadline then Expired else Again;
    }

    /** Several channels: a round of looks, and a slice of sleep between rounds. */
    method WaitTurns(rr: nat, timeout: real, deadline: real) returns (got: Got)
      requires Valid() && |queues| > 1 && deadline == read + timeout && read == clock
      modifies this`clock, this`script, this`queues, this`gone, this`erred, this`fatal, this`did, this`read
      ensures Valid() && Onward() && Result(got, old(gone), old(queues), gone, queues)
      ensures got.Took? ==> got.channel < |queues| && TookBy(got, deadline, timeout)
      ensures got.Took? ==> Passed(old(queues), queues, rr, Distance(rr, got.channel, |queues|), erred, reach)
      ensures got.Took? && got.channel != Slot(rr, 0, |queues|) && timeout > 0.0 ==>
                old(script) != [] && read >= old(clock) + old(script)[0].elapsed
      ensures got.Nothing? && timeout <= 0.0 ==> Passed(old(queues), queues, rr, |queues|, erred, reach)
      ensures got.Nothing? ==> read >= deadline
      ensures got.Raised? ==> fatal
      ensures got.Refused? ==> timeout > 0.0
      ensures LateSlice(old(script), |queues|, timeout) && AllEmpty(old(queues)) ==> got.Refused?
      ensures var brings := RoundOf(old(queues), rr, 0, old(script), timeout > 0.0);
              Quiet(|queues|, timeout, deadline, old(script), old(clock)) && (brings.Took? || timeout <= 0.0) ==>
                got == brings
    {
      hide NoneTaken, OneTaken, InTime, Passed, Distance, TookBy, Slot;
      hide Calm, AllEmpty, RoundOf, AsRoundOf, Quiet, LateSlice, Spent, TicksBefore;
      NothingHappened(gone, queues);
      var first := true;
      ghost var q0, t0, c0, n := queues, script, clock, |queues|;
      CalmIsQuiet(n, timeout, deadline, script, clock);
      while script != []
        invariant |queues| == n && Valid() && Onward()
        invariant NoneTaken(old(gone), old(queues), gone, queues)
        invariant TurnInTime(0, timeout, deadline, read)
        invariant first ==> queues == q0 && script == t0 && clock == c0
        invariant !first ==> timeout > 0.0 && !(LateSlice(t0, n, timeout) && AllEmpty(q0))
        invariant !first ==> t0 != [] && clock >= c0 + t0[0].elapsed
        invariant !first ==> !(Quiet(n, timeout, deadline, t0, c0) && RoundOf(q0, rr, 0, t0, timeout > 0.0).Took?)
        decreases |script|
      {
        ghost var g1, q1 := gone, queues;
        var spent, over;
        got, spent, over := Round(rr, timeout, deadline);
        ResultAfter(got, old(gone), old(queues), g1, q1, gone, queues);
        if got.Took? {
          PassedBefore(old(gone), old(queues), g1, q1, queues, rr, Distance(rr, got.channel, n), erred, reach);
        }
        AfterRound(first, got, spent, over, rr, timeout, deadline, q0, t0, c0, queues, script, clock);
        if !got.Nothing? || over { return; }
        PassedBefore(old(gone), old(queues), g1, q1, queues, rr, n, erred, reach);
        ghost var g2, q2 := gone, queues;
        var between; ghost var reading, again;
        between, reading, again := BetweenRounds(spent, deadline);
        ResultAfter(Nothing, old(gone), old(queues), g2, q2, gone, queues);
        PassedStill(old(queues), gone, q2, gone, queues, rr, n, erred, erred, reach);
        if between == Expired { return; }
        if between == Negative { return Refused; }
        first := false;
      }
      got := Stopped;
    }

    /** The next frame on any channel: nearest the position first, and what is returned is all that was taken;
        every channel passed over has its next one nearer. Without a budget it is one look at each. `start` is
        the reading its deadline counts from, `asked` what the call that brought the frame was asked to wait. */
    method WaitOn(timeout: real, rr: nat) returns (got: Got, rr': nat, ghost start: real, ghost asked: int)
      requires Valid()
      modifies this`clock, this`script, this`queues, this`gone, this`erred, this`fatal, this`did, this`read
      ensures Valid() && Onward() && Result(got, old(gone), old(queues), gone, queues) && start >= old(clock)
      ensures got.Took? ==> got.channel < |queues| && CallInTime(|queues|, start, timeout, read, asked)
      ensures got.Took? ==>
                did != [] && did[|did| - 1] == Looked(got.channel, read, start + timeout, timeout, asked, false)
      ensures rr' == if got.Took? && |queues| > 1 then got.channel + 1 else rr
      ensures got.Took? ==> Passed(old(queues), queues, rr, Distance(rr, got.channel, |queues|), erred, reach)
      ensures got.Took? ==> NoneNearer(old(queues), rr, Distance(rr, got.channel, |queues|), erred, reach)
      ensures got.Nothing? && (timeout <= 0.0 || |queues| == 1) ==>
                && Passed(old(queues), queues, rr, |queues|, erred, reach)
                && NoneNearer(old(queues), rr, |queues|, erred, reach)
      ensures got.Nothing? && |queues| > 1 ==> read >= start + timeout
      ensures got.Nothing? && |queues| != 1 ==> clock >= start + timeout
      ensures got.Nothing? && |queues| == 1 && clock < start + timeout ==>
                0 in erred || AtOnceAgain(timeout, true)
      ensures got.Raised? ==> fatal
      ensures got.Refused? ==> |queues| > 1 && timeout > 0.0
      ensures |queues| > 1 && AllEmpty(old(queues)) && LateWait(old(script), |queues|, timeout) ==> got.Refused?
      ensures old(script) != [] && queues != [] ==> start == old(clock) + old(script)[0].elapsed
      ensures |queues| > 1 && QuietWait(old(script), |queues|, timeout) ==>
                var brings := RoundOf(old(queues), rr, 0, old(script)[1..], timeout > 0.0);
                && (brings.Took? || timeout <= 0.0 ==> got == brings)
                && (got.Took? && got.channel != Slot(rr, 0, |queues|) && timeout > 0.0 ==>
                    |old(script)| > 1 && read >= start + old(script)[1].elapsed)
      ensures |queues| == 1 && |old(script)| > 1 && Calm(old(script), 2)
              && FrameWithin(old(queues)[0], old(script)[1].reach) ==>
                got.Took? && clock == start + old(script)[1].elapsed
    {
      hide NoneTaken, OneTaken, InTime, NoneNearer, Passed, Distance, TookBy, AllEmpty, RoundOf, LateSlice;
      hide CallInTime, FrameWithin, Quiet, Slot;
      rr', start, asked := rr, clock, 0;
      if queues == [] {
        got := Nothing;
        NothingHappened(gone, queues);
        NoneYet(queues, queues, rr, erred, reach);
        NearestFirst(queues, queues, rr, 0, erred, reach);
        if timeout > 0.0 {
          ghost var q0 := queues;
          Within(read, timeout, read + timeout);
          Sleep(timeout, read + timeout);
          assert queues == q0;
        }
        return;
      }
      ghost var n := |queues|;
      var now := Now();
      start := now;
      ghost var q0 := queues;
      if n > 1 { CalmIsQuiet(n, timeout, start + timeout, script, start); }
      if |queues| == 1 {
        ghost var seen;
        got, seen := WaitSingle(timeout, now + timeout);
        OnlyOne(q0, queues, rr, erred, reach);
        NoneYet(q0, queues, rr, erred, reach);
      } else {
        got := WaitTurns(rr, timeout, now + timeout);
        if got.Took? { rr' := got.channel + 1; }
      }
      if got.Took? { asked := TookInTime(got, start, timeout); }
      ResultAfter(got, old(gone), old(queues), old(gone), q0, gone, queues);
      if got.Took? || (got.Nothing? && (timeout <= 0.0 || |queues| == 1)) {
        ghost var k := if got.Took? then Distance(rr, got.channel, n) else n;
        PassedBefore(old(gone), old(queues), old(gone), q0, queues, rr, k, erred, reach);
        NearestFirst(old(queues), queues, rr, k, erred, reach);
      }
    }

    ghost method TookInTime(got: Got, start: real, timeout: real) returns (asked: int)
      requires Valid() && got.Took? && TookBy(got, start + timeout, timeout)
      ensures CallInTime(|queues|, start, timeout, read, asked)
      ensures did != [] && did[|did| - 1] == Looked(got.channel, read, start + timeout, timeout, asked, false)
    {
      asked := did[|did| - 1].asked;
      assert InTime(|queues|, did[|did| - 1]);
    }

    /** Wait after wait on the same channels: a channel with a frame queued is served in its turn, however
        many records are ahead of it. */
    method ServeTurns(timeouts: seq<real>, rr: nat) returns (served: seq<nat>, rr': nat)
      requires Valid()
      modifies this`clock, this`script, this`queues, this`gone, this`erred, this`fatal, this`did, this`read
      ensures Valid() && Onward()
      ensures forall c: nat | c < |queues| && c !in erred && Ahead(old(queues)[c]) < |old(queues)[c]| ::
                |served| > Turns(old(queues), c, rr, reach) ==> c in served[..Turns(old(queues), c, rr, reach) + 1]
    {
      hide NoneTaken, OneTaken, InTime, NoneNearer, Passed, Distance, Fair, Turns, Ahead;
      hide FrameWithin, Calm, LateSlice, AllEmpty, RoundOf, CallInTime, Quiet;
      served, rr' := [], rr;
      FairAtFirst(queues, rr, erred, reach);
      var i := 0;
      while i < |timeouts|
        invariant 0 <= i <= |timeouts| && Valid() && Onward()
        invariant Fair(old(queues), rr, rr', served, queues, erred, reach)
      {
        ghost var g1, q1, e1 := gone, queues, erred;
        var rr1 := rr';
        var got; ghost var start, asked;
        got, rr', start, asked := WaitOn(timeouts[i], rr1);
        if got.Took? {
          FairServed(old(queues), rr, rr1, served, got.channel, got.id, e1, erred, g1, q1, gone, queues, reach);
          served := served + [got.channel];
        } else {
          FairIdle(old(queues), rr, rr1, served, e1, erred, g1, q1, gone, queues, reach);
          if !got.Nothing? { break; }
        }
        i := i + 1;
      }
      forall c: nat | c < |queues| && c !in erred && Ahead(old(queues)[c]) < |old(queues)[c]|
                      && |served| > Turns(old(queues), c, rr, reach)
        ensures c in served[..Turns(old(queues), c, rr, reach) + 1]
      {
        ServedInTurn(c, old(queues), rr, rr', served, queues, erred, reach);
      }
    }
  }

  // ---- waits that go as badly as they may -----------------------------------------------------

  /** With any two or more channels and any budget at all, a wait can be refused its slice of sleep. */
  method SomeSliceIsRefused(channels: nat, timeout: real, rr: nat) returns (w: Waiter, got: Got)
    requires channels > 1 && timeout > 0.0
    ensures fresh(w) && w.Valid() && |w.queues| == channels && got.Refused?
  {
    hide Slot, Distance, RoundOf, Quiet;
    var late := 2 * channels + 1;
    var ticks := seq(late + 1, i => Tick(if i == late then timeout + 1.0 else 0.0, [], Fine, 1));
    w := new Waiter(seq(channels, _ => []), ticks, {}, 1);
    assert forall i :: 0 <= i < 2 * channels ==> ticks[1..][i] == ticks[i + 1];
    assert ticks[1..][2 * channels] == ticks[late];
    NoneSpent(ticks[1..], 2 * channels);
    assert LateSlice(ticks[1..], channels, timeout);
    var rr'; ghost var start, asked;
    got, rr', start, asked := w.WaitOn(timeout, rr);
  }

  /** A wait that begins at any moment and overruns any deadline can take a frame past it: by a call made at the
      deadline or later, or, with one channel, by the driver's at the end of the time it was asked to wait. */
  method LateCall(channels: nat, timeout: real, start: Span, deadline: real, id: nat)
    returns (w: Waiter, got: Got, ghost asked: int)
    requires channels > 0 && Overruns(channels, deadline, timeout, start)
    ensures fresh(w) && w.Valid() && |w.queues| == channels && got.Took?
    ensures CallInTime(channels, start, timeout, w.read, asked) && CanTakeLate(deadline, w.read, asked)
    ensures w.read >= deadline || (deadline < w.clock == w.read + asked as real)
  {
    hide Slot, Distance, RoundOf;
    var begins := Tick(start, [], Fine, 1);
    var queued := [Frame(id)];
    ghost var began;
    var rr';
    if channels == 1 {
      var whole := Whole(timeout);
      w := new Waiter([queued], [begins, Tick(if whole > 0 then whole as real else 0.0, [], Fine, 1)], {}, 1);
      got, rr', began, asked := w.WaitOn(timeout, 0);
    } else {
      var late := if start >= deadline then 0.0 else deadline - start;
      var slow := [Tick(late, [], Fine, 1)] + Idles(2 * channels);
      w := new Waiter(EmptyFirst(channels, id), [begins] + slow, {}, 1);
      assert ([begins] + slow)[1..] == slow;
      SlowRound(channels, timeout, late, id);
      got, rr', began, asked := w.WaitOn(timeout, 0);
      assert got == Took(1, id) && began == start;
      assert timeout > 0.0 ==> w.read >= start + late;
    }
  }

  /** Only the first channel has no frame. */
  function EmptyFirst(channels: nat, id: nat): (q: Queues)
    requires channels > 0
    ensures |q| == channels && q[0] == [] && forall c :: 0 < c < channels ==> q[c] == [Frame(id)]
  {
    [[]] + seq(channels - 1, _ => [Frame(id)])
  }

  function Idles(n: nat): seq<Tick> { seq(n, _ => Tick(0.0, [], Fine, 1)) }

  /** The first look takes its time and finds nothing; the second finds a frame. */
  lemma SlowRound(channels: nat, timeout: real, late: Span, id: nat)
    requires channels > 1 && (timeout > 0.0 ==> late < timeout)
    ensures var slow := [Tick(late, [], Fine, 1)] + Idles(2 * channels);
            && Quiet(channels, timeout, timeout, slow, 0.0) && Slot(0, 0, channels) == 0
            && RoundOf(EmptyFirst(channels, id), 0, 0, slow, timeout > 0.0) == Took(1, id)
  {
    var slow := [Tick(late, [], Fine, 1)] + Idles(2 * channels);
    var queues := EmptyFirst(channels, id);
    OneSlow(slow, TicksBefore(channels, true));
    assert Slot(0, 0, channels) == 0 && Slot(0, 1, channels) == 1;
    assert queues[0] == [] && queues[1] == [Frame(id)];
    hide Slot, Spent, EmptyFirst;
    assert RoundOf(queues, 0, 1, slow, timeout > 0.0) == Took(1, id);
  }

  lemma {:induction false} OneSlow(ticks: seq<Tick>, n: nat)
    requires 1 <= n <= |ticks| && forall i :: 1 <= i < n ==> ticks[i].elapsed == 0.0
    ensures Spent(ticks, n) == ticks[0].elapsed
  {
    if n > 1 { OneSlow(ticks, n - 1); } else { assert Spent(ticks, 0) == 0.0; }
  }

  /** As many records as a look reads, and a frame behind them. */
  function Buried(bound: nat, id: nat): (q: seq<Record>)
    ensures Ahead(q) == bound == |q| - 1 && !FrameWithin(q, bound)
  {
    if bound == 0 then [Frame(id)] else
      var q := Buried(bound - 1, id);
      assert ([NotFrame] + q)[1..] == q;
      [NotFrame] + q
  }

  /** Whatever the bound, a frame just beyond it is passed over for one further on. */
  method BeyondTheBound(bound: nat) returns (w: Waiter, got: Got)
    requires bound > 0
    ensures fresh(w) && w.Valid() && w.reach == bound && got == Took(1, 1)
    ensures |w.queues| == |w.gone| == 2 && Ahead(w.queues[0]) < |w.queues[0]| && Frames(w.gone[0]) == []
  {
    hide Distance;
    var ticks := seq(3, i => Tick(0.0, [], Fine, bound));
    var queued := [Buried(bound, 0), [Frame(1)]];
    w := new Waiter(queued, ticks, {}, bound);
    var rr'; ghost var start, asked;
    assert Calm(ticks, 3) && ticks[1..][0] == ticks[1] && ticks[1..][1] == ticks[2];
    assert RoundOf(queued, 0, 1, ticks[1..], false) == Took(1, 1);
    assert RoundOf(queued, 0, 0, ticks[1..], false) == Took(1, 1);
    ghost var g := w.gone;
    got, rr', start, asked := w.WaitOn(0.0, 0);
    assert Keeps(0, g, queued, w.gone, w.queues);
  }
}
