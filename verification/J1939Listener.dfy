/**
 The J1939 reading of a channel: completed messages are taken from the engine's queue, faults are
 kept until they are asked for, the newest 1024 of them. `script` is what the library answers and
 what the frames read complete, one answer a call.
 */
module J1939Listener {
  import opened Basics

  const QUEUE := 1024

  datatype Message = Message(pgn: nat, sa: nat, data: seq<nat>)

  datatype Fault = Fault(kind: nat, sa: nat, da: nat)

  /** What `expect_pgn` waits for. */
  datatype Want = Want(pgn: nat, sa: Option<nat>)

  datatype Answer = Answer(fails: bool, messages: seq<Message>, faults: seq<Fault>)

  /** How a wait for a message ends. */
  datatype Expected =
    | Refused
    | Failed
    | Came(want: Want, message: Message)
    | TimedOut(want: Want, others: multiset<(nat, nat)>, faults: nat)

  /** What can be waited for: a PDU1 group's destination is no part of it. */
  predicate Askable(pgn: int, sa: Option<int>) {
    && 0 <= pgn <= 0x3FFFF && !(pgn / 256 % 256 < 0xF0 && pgn % 256 != 0)
    && (sa.Some? ==> 0 <= sa.value <= 0xFD)
  }

  function WantOf(pgn: int, sa: Option<int>): Want
    requires Askable(pgn, sa)
  {
    Want(pgn, if sa.Some? then Some(sa.value) else None)
  }

  predicate Matches(want: Want, m: Message) { m.pgn == want.pgn && (want.sa.None? || m.sa == want.sa.value) }

  /** A message of the group asked for, from the source asked for if one was. */
  predicate IsOf(pgn: int, sa: Option<int>, m: Message) { m.pgn == pgn && (sa == None || sa == Some(m.sa)) }

  lemma WantedIsOf(pgn: int, sa: Option<int>, m: Message)
    requires Askable(pgn, sa)
    ensures Matches(WantOf(pgn, sa), m) <==> IsOf(pgn, sa, m)
  {}

  /** The group a 29-bit identifier carries: a destination is no part of it. */
  function GroupOf(id: nat): nat {
    var group := id / 256 % 0x40000;
    if group / 256 % 256 < 0xF0 then group - group % 256 else group
  }

  /** What can be asked for is exactly what some identifier carries, from any source that has an address. */
  lemma AskableIff(pgn: int, sa: Option<int>)
    ensures Askable(pgn, sa) <==>
              (exists id: nat :: id < 0x2000_0000 && GroupOf(id) == pgn) && (sa.Some? ==> 0 <= sa.value <= 0xFD)
  {
    if 0 <= pgn <= 0x3FFFF && !(pgn / 256 % 256 < 0xF0 && pgn % 256 != 0) {
      assert GroupOf(pgn * 256) == pgn;
    }
  }

  function Key(m: Message): (nat, nat) { (m.pgn, m.sa) }

  /** How many messages of each group and source. */
  function Counted(messages: seq<Message>): multiset<(nat, nat)> {
    if messages == [] then multiset{} else Counted(messages[..|messages| - 1]) + multiset{Key(messages[|messages| - 1])}
  }

  lemma CountedAnd(messages: seq<Message>, m: Message)
    ensures Counted(messages + [m]) == Counted(messages) + multiset{Key(m)}
  {
    assert (messages + [m])[..|messages|] == messages;
  }

  // ---- the account of the faults --------------------------------------------------------------

  /** What one call of `faults` delivered, and what had been dropped before it since the call before. */
  datatype Batch = Batch(lost: seq<Fault>, delivered: seq<Fault>)

  function Taken(batches: seq<Batch>): seq<Fault> {
    if batches == [] then []
    else Taken(batches[..|batches| - 1]) + batches[|batches| - 1].lost + batches[|batches| - 1].delivered
  }

  function Delivered(batches: seq<Batch>): seq<Fault> {
    if batches == [] then [] else Delivered(batches[..|batches| - 1]) + batches[|batches| - 1].delivered
  }

  function Lost(batches: seq<Batch>): nat {
    if batches == [] then 0 else Lost(batches[..|batches| - 1]) + |batches[|batches| - 1].lost|
  }

  /** Only a full queue loses: the kept ones are the newest. */
  predicate Newest(lost: seq<Fault>, kept: seq<Fault>) { |kept| <= QUEUE && (lost != [] ==> |kept| == QUEUE) }

  /** Every fault taken from the engine, in the order taken, is in one batch, was lost since the last,
      or is still kept. */
  ghost predicate Accounted(taken: seq<Fault>, batches: seq<Batch>, gone: seq<Fault>, kept: seq<Fault>, lost: nat) {
    && taken == Taken(batches) + gone + kept
    && lost == Lost(batches) + |gone| && Newest(gone, kept)
    && forall i :: 0 <= i < |batches| ==> Newest(batches[i].lost, batches[i].delivered)
  }

  function Kept(kept: seq<Fault>, f: Fault): seq<Fault>
  {
    if |kept| >= QUEUE then kept[1..] + [f] else kept + [f]
  }

  function Gone(gone: seq<Fault>, kept: seq<Fault>): seq<Fault> {
    if |kept| >= QUEUE then gone + [kept[0]] else gone
  }

  lemma OneTaken(taken: seq<Fault>, batches: seq<Batch>, gone: seq<Fault>, kept: seq<Fault>, lost: nat, f: Fault)
    requires Accounted(taken, batches, gone, kept, lost)
    ensures Accounted(taken + [f], batches, Gone(gone, kept), Kept(kept, f), if |kept| == QUEUE then lost + 1 else lost)
  {
    hide Taken, Lost;
    if |kept| == QUEUE {
      assert kept == [kept[0]] + kept[1..];
      assert taken + [f] == Taken(batches) + (gone + [kept[0]]) + (kept[1..] + [f]);
    } else {
      assert taken + [f] == Taken(batches) + gone + (kept + [f]);
    }
  }

  lemma AllDelivered(taken: seq<Fault>, batches: seq<Batch>, gone: seq<Fault>, kept: seq<Fault>, lost: nat)
    requires Accounted(taken, batches, gone, kept, lost)
    ensures Accounted(taken, batches + [Batch(gone, kept)], [], [], lost)
    ensures Delivered(batches + [Batch(gone, kept)]) == Delivered(batches) + kept
  {
    var more := batches + [Batch(gone, kept)];
    assert more[..|more| - 1] == batches;
    assert taken == Taken(more) + [] + [];
  }

  lemma NothingTaken()
    ensures Accounted([], [], [], [], 0) && Delivered([]) == []
  {}

  /** Conservation: nothing taken is unaccounted for, or accounted for twice. */
  lemma {:induction false} FaultsConserved(batches: seq<Batch>)
    ensures |Taken(batches)| == |Delivered(batches)| + Lost(batches)
    ensures multiset(Delivered(batches)) <= multiset(Taken(batches))
  {
    if batches != [] {
      var init, last := batches[..|batches| - 1], batches[|batches| - 1];
      FaultsConserved(init);
      assert multiset(Taken(batches)) == multiset(Taken(init)) + multiset(last.lost) + multiset(last.delivered);
      assert multiset(Delivered(batches)) == multiset(Delivered(init)) + multiset(last.delivered);
    }
  }

  lemma AtMost(taken: seq<Fault>, batches: seq<Batch>, gone: seq<Fault>, kept: seq<Fault>, lost: nat)
    requires Accounted(taken, batches, gone, kept, lost)
    ensures |kept| <= QUEUE
  {}

  /** None of them is waited for. */
  predicate NoMatch(want: Option<Want>, messages: seq<Message>) {
    want.Some? ==> forall i :: 0 <= i < |messages| ==> !Matches(want.value, messages[i])
  }

  lemma NoMatchMeans(want: Want, messages: seq<Message>, i: nat)
    requires NoMatch(Some(want), messages) && i < |messages|
    ensures !Matches(want, messages[i])
  {}

  lemma NoMatchAtAll(want: Option<Want>, messages: seq<Message>)
    requires want.None?
    ensures NoMatch(want, messages)
  {}

  lemma NoMatchAnd(want: Option<Want>, messages: seq<Message>, m: Message)
    requires want.Some? && NoMatch(want, messages) && !Matches(want.value, m)
    ensures NoMatch(want, messages + [m])
  {}

  lemma SomeMatch(want: Want, messages: seq<Message>, i: nat)
    requires i < |messages| && Matches(want, messages[i])
    ensures !NoMatch(Some(want), messages)
  {}

  lemma NoMatchIn(want: Want, messages: seq<Message>)
    requires forall k :: 0 <= k < |messages| ==> !Matches(want, messages[k])
    ensures NoMatch(Some(want), messages)
  {}

  /** Where only the last can match, a match is the last. */
  lemma FirstMatch(want: Want, messages: seq<Message>, i: nat)
    requires i < |messages| && Matches(want, messages[i])
    requires NoMatch(Some(want), messages) || NoMatch(Some(want), messages[..|messages| - 1])
    ensures i == |messages| - 1
  {
    hide Matches;
  }

  lemma LostSoFar(taken: seq<Fault>, batches: seq<Batch>, gone: seq<Fault>, kept: seq<Fault>, lost: nat)
    requires Accounted(taken, batches, gone, kept, lost)
    ensures lost == Lost(batches) + |gone|
  {}

  lemma NothingCounted()
    ensures Counted([]) == multiset{}
  {}

  // ---- what a script of answers decides -------------------------------------------------------

  function Drop(script: seq<Answer>, n: nat): seq<Answer> { if n <= |script| then script[n..] else [] }

  /** The first of the next `n` answers that fails, `n` when none does. A script that has ended fails no more. */
  function FailAt(script: seq<Answer>, n: nat): (f: nat)
    ensures f <= n
  {
    if n == 0 || script == [] then n else if script[0].fails then 0 else 1 + FailAt(script[1..], n - 1)
  }

  predicate FailsNext(script: seq<Answer>) { script != [] && script[0].fails }

  lemma {:induction false} FailNext(script: seq<Answer>, n: nat)
    requires FailAt(script, n) == n
    ensures FailAt(script, n + 1) == if FailsNext(Drop(script, n)) then n else n + 1
    ensures Drop(Drop(script, n), 1) == Drop(script, n + 1)
  {
    if n > 0 && script != [] { FailNext(script[1..], n - 1); }
  }

  lemma {:induction false} FailFirst(script: seq<Answer>, n: nat, more: nat)
    requires n < more && FailAt(script, n) == n && FailsNext(Drop(script, n))
    ensures FailAt(script, more) == n
  {
    if n > 0 && script != [] { FailFirst(script[1..], n - 1, more - 1); }
  }

  lemma {:induction false} FailBoth(script: seq<Answer>, a: nat, b: nat)
    requires FailAt(script, a) == a
    ensures FailAt(script, a + b) == a + FailAt(Drop(script, a), b) && Drop(Drop(script, a), b) == Drop(script, a + b)
  {
    if a > 0 && script != [] { FailBoth(script[1..], a - 1, b); }
  }

  lemma NoneSoFar(want: Option<Want>, messages: seq<Message>)
    ensures NoMatch(want, messages[..0])
  {}

  /** Asked once more than there are messages before, a take has asked too little or found the end. */
  lemma NoneLeft(want: Option<Want>, messages: seq<Message>, j: nat)
    requires j <= |messages| && NoMatch(want, messages[..j])
    ensures 1 + j < TakeAsks(want, messages) && TakenBy(want, messages, 1 + j) == j
    ensures j == |messages| ==>
              Takes(want, messages) == j && 2 + j == TakeAsks(want, messages) && TakenBy(want, messages, 2 + j) == j
  {
    TakesFrom(want, messages, j);
    if j == |messages| { assert messages[..j] == messages; }
  }

  lemma NoneAsked(script: seq<Answer>)
    ensures FailAt(script, 0) == 0 && Drop(script, 0) == script
  {}

  /** How many messages a take takes, if nothing fails: all, or up to the first match. */
  function Takes(want: Option<Want>, messages: seq<Message>): (t: nat)
    ensures t <= |messages|
  {
    if messages == [] then 0
    else if want.Some? && Matches(want.value, messages[0]) then 1
    else 1 + Takes(want, messages[1..])
  }

  lemma NoMatchSplit(want: Option<Want>, messages: seq<Message>, j: nat)
    requires j <= |messages|
    ensures NoMatch(want, messages) <==> NoMatch(want, messages[..j]) && NoMatch(want, messages[j..])
  {
    hide Matches;
    if want.Some? && NoMatch(want, messages[..j]) && NoMatch(want, messages[j..]) {
      forall i | 0 <= i < |messages| ensures !Matches(want.value, messages[i]) {
        if i < j { assert messages[..j][i] == messages[i]; } else { assert messages[j..][i - j] == messages[i]; }
      }
    }
  }

  /** After `j` messages that do not match. */
  lemma {:induction false} TakesFrom(want: Option<Want>, messages: seq<Message>, j: nat)
    requires j <= |messages| && NoMatch(want, messages[..j])
    ensures Takes(want, messages) == j + Takes(want, messages[j..])
    ensures NoMatch(want, messages) <==> NoMatch(want, messages[j..])
    ensures j < |messages| ==> Takes(want, messages) > j
    decreases j
  {
    NoMatchSplit(want, messages, j);
    if j > 0 {
      assert want.Some? ==> !Matches(want.value, messages[..j][0]);
      NoMatchSplit(want, messages[..j], 1);
      assert messages[..j][1..] == messages[1..][..j - 1] && messages[1..][j - 1..] == messages[j..];
      TakesFrom(want, messages[1..], j - 1);
    } else {
      assert messages[0..] == messages;
    }
  }

  /** The message after them. */
  lemma TakesOne(want: Option<Want>, messages: seq<Message>, j: nat)
    requires j < |messages| && NoMatch(want, messages[..j])
    ensures want.Some? && Matches(want.value, messages[j]) ==>
              Takes(want, messages) == j + 1 && !NoMatch(want, messages)
    ensures want.Some? && Matches(want.value, messages[j]) ==>
              TakeAsks(want, messages) == j + 2 && TakenBy(want, messages, j + 2) == j + 1
    ensures !(want.Some? && Matches(want.value, messages[j])) ==> NoMatch(want, messages[..j + 1])
  {
    TakesFrom(want, messages, j);
    assert messages[j..][0] == messages[j];
    assert messages[..j + 1] == messages[..j] + [messages[j]];
  }

  /** The answers those takes ask for: whether the run is the same, each message, and that there is no more. */
  function TakeAsks(want: Option<Want>, messages: seq<Message>): (n: nat)
    ensures n > 0
  {
    1 + Takes(want, messages) + if NoMatch(want, messages) then 1 else 0
  }

  /** What a take has taken so far, `out`, none of it a match, and what it left. */
  ghost predicate Taking(want: Option<Want>, m0: seq<Message>, s0: seq<Answer>, out: seq<Message>,
                         left: seq<Message>, script: seq<Answer>)
  {
    && |out| <= |m0| && out == m0[..|out|] && left == m0[|out|..] && NoMatch(want, out)
    && FailAt(s0, 1 + |out|) == 1 + |out| && script == Drop(s0, 1 + |out|)
  }

  /** What it took in all, the first of its answers that fails deciding. */
  ghost predicate TookAll(want: Option<Want>, m0: seq<Message>, s0: seq<Answer>, ok: bool, out: seq<Message>,
                          left: seq<Message>, script: seq<Answer>)
  {
    var f := FailAt(s0, TakeAsks(want, m0));
    && (ok <==> f == TakeAsks(want, m0)) && out == m0[..TakenBy(want, m0, f)] && left == m0[|out|..]
    && (ok ==> script == Drop(s0, TakeAsks(want, m0)))
  }

  lemma TakeBegins(want: Option<Want>, m0: seq<Message>, s0: seq<Answer>)
    ensures FailsNext(s0) ==> TookAll(want, m0, s0, false, [], m0, Drop(s0, 1))
    ensures !FailsNext(s0) ==> Taking(want, m0, s0, [], m0, Drop(s0, 1))
  {
    NoneAsked(s0);
    FailNext(s0, 0);
    NoneSoFar(want, m0);
    if FailsNext(s0) { FailFirst(s0, 0, TakeAsks(want, m0)); }
    hide FailAt, Drop, FailsNext, Takes, NoMatch, Matches, TakeAsks;
  }

  /** One answer further. */
  lemma TakeGoesOn(want: Option<Want>, m0: seq<Message>, s0: seq<Answer>, out: seq<Message>,
                   left: seq<Message>, script: seq<Answer>)
    requires Taking(want, m0, s0, out, left, script)
    ensures FailsNext(script) ==> TookAll(want, m0, s0, false, out, left, Drop(script, 1))
    ensures !FailsNext(script) && left == [] ==> TookAll(want, m0, s0, true, out, left, Drop(script, 1))
    ensures !FailsNext(script) && left != [] ==>
              if want.Some? && Matches(want.value, left[0])
              then TookAll(want, m0, s0, true, out + [left[0]], left[1..], Drop(script, 1))
              else Taking(want, m0, s0, out + [left[0]], left[1..], Drop(script, 1))
  {
    hide FailAt, Drop, FailsNext, Takes, NoMatch, Matches, TakeAsks, TakenBy;
    var j := |out|;
    FailNext(s0, 1 + j);
    if FailsNext(script) {
      NoneLeft(want, m0, j);
      FailFirst(s0, 1 + j, TakeAsks(want, m0));
    } else if left == [] {
      NoneLeft(want, m0, j);
    } else {
      TakesOne(want, m0, j);
      assert m0[..j + 1] == m0[..j] + [m0[j]] && left[0] == m0[j] && left[1..] == m0[j + 1..];
    }
  }

  /** And those of a whole take, with the faults after the messages. */
  function Asks(want: Option<Want>, messages: seq<Message>, faults: nat): nat { TakeAsks(want, messages) + faults + 1 }

  /** How many messages are taken when answer `f` is the first to fail. */
  function TakenBy(want: Option<Want>, messages: seq<Message>, f: nat): (t: nat)
    ensures t <= |messages|
  {
    if f == 0 then 0 else if f - 1 < Takes(want, messages) then f - 1 else Takes(want, messages)
  }

  /** What a take that does not fail returns: all of them without a match, else up to the first. */
  lemma {:induction false} TookExactly(want: Option<Want>, messages: seq<Message>)
    ensures var out := messages[..Takes(want, messages)];
            if NoMatch(want, messages) then out == messages && NoMatch(want, out)
            else out != [] && NoMatch(want, out[..|out| - 1]) && !NoMatch(want, out)
    ensures want.None? ==> NoMatch(want, messages)
  {
    var t := Takes(want, messages);
    if messages != [] {
      if want.Some? && Matches(want.value, messages[0]) {
        assert messages[..1][0] == messages[0];
      } else {
        var rest, out := messages[1..], messages[..t];
        TookExactly(want, rest);
        NoMatchSplit(want, messages, 1);
        NoMatchSplit(want, out, 1);
        assert messages[..1][0] == messages[0] && out[..1] == messages[..1] && out[1..] == rest[..t - 1];
        assert out[..t] == out;
        if !NoMatch(want, rest) {
          NoMatchSplit(want, out[..t - 1], 1);
          assert out[..t - 1][..1] == messages[..1] && out[..t - 1][1..] == rest[..t - 1][..t - 2];
        }
      }
    }
  }

  /** Whether a take is the wait's last, if nothing fails: it found what is waited for, or time is up. */
  predicate TakesLast(want: Option<Want>, messages: seq<Message>, faults: nat, script: seq<Answer>) {
    || Drop(script, Asks(want, messages, faults)) == []
    || (if want.None? then messages != [] else !NoMatch(want, messages))
  }

  /** How a wait for messages ends, and what it has taken from the engine by then. */
  datatype Waited = Waited(ok: bool, took: seq<Message>)

  function Waits(want: Option<Want>, messages: seq<Message>, faults: nat, script: seq<Answer>): Waited
    decreases |script|
  {
    var n := Asks(want, messages, faults);
    var f := FailAt(script, n);
    var took := messages[..TakenBy(want, messages, f)];
    var rest := Drop(script, n);
    if f < n then Waited(false, took)
    else if TakesLast(want, messages, faults, script) then Waited(true, took)
    else if rest[0].fails then Waited(false, took)
    else
      var later := Waits(want, rest[0].messages, |rest[0].faults|, rest[1..]);
      Waited(later.ok, took + later.took)
  }

  /** How a wait ends, turn by turn. */
  lemma WaitsStep(want: Option<Want>, messages: seq<Message>, faults: nat, script: seq<Answer>)
    ensures var n := Asks(want, messages, faults);
            var f, rest, w := FailAt(script, n), Drop(script, n), Waits(want, messages, faults, script);
            && (f < n ==> w == Waited(false, messages[..TakenBy(want, messages, f)]))
            && (f == n && (rest == [] || !NoMatch(want, messages) || (want.None? && messages != [])) ==>
                w == Waited(true, messages[..Takes(want, messages)]))
            && (f == n && rest != [] && NoMatch(want, messages) && (want.Some? || messages == []) ==>
                if rest[0].fails then w == Waited(false, messages)
                else var later := Waits(want, rest[0].messages, |rest[0].faults|, rest[1..]);
                  w == Waited(later.ok, messages + later.took))
            && TakenBy(want, messages, n) == Takes(want, messages) && |rest| <= |script|
  {
    TookExactly(want, messages);
  }

  /** What is still to come of a wait, once `passed` has been passed over. */
  predicate Sofar(w0: Waited, passed: seq<Message>, w: Waited) { w0 == Waited(w.ok, passed + w.took) }

  lemma Regrouped(a: seq<Message>, b: seq<Message>, c: seq<Message>)
    ensures (a + b) + c == a + (b + c)
  {}

  lemma SofarEnds(w0: Waited, passed: seq<Message>, w: Waited)
    requires Sofar(w0, passed, w)
    ensures w0.ok == w.ok && w0.took == passed + w.took
  {}

  lemma SofarOn(w0: Waited, passed: seq<Message>, w: Waited, messages: seq<Message>, later: Waited)
    requires Sofar(w0, passed, w) && w == Waited(later.ok, messages + later.took)
    ensures Sofar(w0, passed + messages, later)
  {
    assert passed + (messages + later.took) == (passed + messages) + later.took;
  }

  lemma NothingPassed(want: Option<Want>)
    ensures NoMatch(want, []) && forall w: Waited :: Sofar(w, [], w)
  {
    forall w: Waited ensures Sofar(w, [], w) { assert [] + w.took == w.took; }
  }

  /** The same of a call, which begins another reading on another handle; `same` when it is the one it had. */
  function Heard(same: bool, want: Option<Want>, messages: seq<Message>, faults: nat, script: seq<Answer>): Waited {
    if same then Waits(want, messages, faults, script)
    else if FailsNext(script) then Waited(false, [])
    else Waits(want, [], 0, Drop(script, 1))
  }

  /** What had been consumed of the reading a call ends in, when it began. */
  function Before(same: bool, consumed: seq<Message>, script: seq<Answer>): seq<Message> {
    if same || FailsNext(script) then consumed else []
  }

  /** A take loses messages -- takes them and does not return them -- exactly when the engine held one,
      the first two answers succeed, and a later answer of that take fails. */
  lemma TakeLosesIff(want: Option<Want>, messages: seq<Message>, faults: nat, script: seq<Answer>)
    ensures var n, f := Asks(want, messages, faults), FailAt(script, Asks(want, messages, faults));
            f < n && TakenBy(want, messages, f) > 0 <==> messages != [] && FailAt(script, 2) == 2 && f < n
  {
    var n := Asks(want, messages, faults);
    var f := FailAt(script, n);
    if messages == [] {
      assert Takes(want, messages) == 0;
    } else {
      assert Takes(want, messages) >= 1 && n >= 3;
      FailPrefix(script, 2, n);
    }
  }

  lemma {:induction false} FailPrefix(script: seq<Answer>, a: nat, n: nat)
    requires a <= n
    ensures FailAt(script, a) == if FailAt(script, n) < a then FailAt(script, n) else a
  {
    if a > 0 && script != [] { FailPrefix(script[1..], a - 1, n - 1); }
  }

  /** The answers a whole wait asks for, if none of them fails. */
  function AsksInAll(want: Option<Want>, messages: seq<Message>, faults: nat, script: seq<Answer>): (n: nat)
    ensures n >= Asks(want, messages, faults)
    decreases |script|
  {
    var n := Asks(want, messages, faults);
    var rest := Drop(script, n);
    if TakesLast(want, messages, faults, script) then n
    else n + 1 + AsksInAll(want, rest[0].messages, |rest[0].faults|, rest[1..])
  }

  /** Those it asks for before it has taken a message: whether the run is the same, and the message. */
  function BeforeFirst(want: Option<Want>, messages: seq<Message>, faults: nat, script: seq<Answer>): nat
    decreases |script|
  {
    if messages != [] then 2
    else
      var n := Asks(want, messages, faults);
      var rest := Drop(script, n);
      if rest == [] then n else n + 1 + BeforeFirst(want, rest[0].messages, |rest[0].faults|, rest[1..])
  }

  /** The answers of a take, of the read after it, and of what follows. */
  lemma FailLater(script: seq<Answer>, n: nat, more: nat)
    ensures FailAt(script, n) < n ==> FailAt(script, n + 1 + more) == FailAt(script, n)
    ensures FailAt(script, n) == n && Drop(script, n) != [] ==>
              FailAt(script, n + 1 + more) ==
                if Drop(script, n)[0].fails then n else n + 1 + FailAt(Drop(script, n)[1..], more)
  {
    FailPrefix(script, n, n + 1 + more);
    if FailAt(script, n) == n { FailBoth(script, n, 1 + more); }
  }

  lemma LosesLast(want: Option<Want>, messages: seq<Message>, faults: nat, script: seq<Answer>)
    requires TakesLast(want, messages, faults, script)
    ensures LosesExactly(want, messages, faults, script)
  {
    WaitsStep(want, messages, faults, script);
    TakeLosesIff(want, messages, faults, script);
    FailPrefix(script, 2, Asks(want, messages, faults));
    hide NoMatch, Matches, FailAt, Drop, Takes;
  }

  lemma LosesMore(want: Option<Want>, messages: seq<Message>, faults: nat, script: seq<Answer>)
    requires !TakesLast(want, messages, faults, script)
    requires var rest := Drop(script, Asks(want, messages, faults));
             LosesExactly(want, rest[0].messages, |rest[0].faults|, rest[1..])
    ensures LosesExactly(want, messages, faults, script)
  {
    var n := Asks(want, messages, faults);
    var rest := Drop(script, n);
    assert rest != [] && NoMatch(want, messages) && (want.Some? || messages == []);
    FirstLater(want, messages, faults, script);
    hide NoMatch, Matches, FailAt, Drop, Takes, Waits, TakesLast, BeforeFirst, AsksInAll, TakenBy, Asks;
    WaitsStep(want, messages, faults, script);
    TakeLosesIff(want, messages, faults, script);
    FailLater(script, n, AsksInAll(want, rest[0].messages, |rest[0].faults|, rest[1..]));
    FailPrefix(script, 2, n);
    MoreThanTwo(want, messages, faults);
  }

  lemma MoreThanTwo(want: Option<Want>, messages: seq<Message>, faults: nat)
    ensures Asks(want, messages, faults) >= 2 && (messages != [] ==> Asks(want, messages, faults) > 2)
  {}

  lemma FirstLater(want: Option<Want>, messages: seq<Message>, faults: nat, script: seq<Answer>)
    requires !TakesLast(want, messages, faults, script)
    ensures var n, rest := Asks(want, messages, faults), Drop(script, Asks(want, messages, faults));
            && AsksInAll(want, messages, faults, script)
               == n + 1 + AsksInAll(want, rest[0].messages, |rest[0].faults|, rest[1..])
            && BeforeFirst(want, messages, faults, script) ==
               (if messages != [] then 2 else n + 1 + BeforeFirst(want, rest[0].messages, |rest[0].faults|, rest[1..]))
  {}

  ghost predicate LosesExactly(want: Option<Want>, messages: seq<Message>, faults: nat, script: seq<Answer>) {
    var n, w := AsksInAll(want, messages, faults, script), Waits(want, messages, faults, script);
    && (w.ok <==> FailAt(script, n) == n)
    && (!w.ok && w.took != [] <==> BeforeFirst(want, messages, faults, script) <= FailAt(script, n) < n)
  }

  /** A wait raises exactly if one of those answers fails, and then loses messages exactly if the first
      that does comes after it had taken one. */
  lemma {:induction false} LosesIff(want: Option<Want>, messages: seq<Message>, faults: nat, script: seq<Answer>)
    ensures var n, w := AsksInAll(want, messages, faults, script), Waits(want, messages, faults, script);
            && (w.ok <==> FailAt(script, n) == n)
            && (!w.ok && w.took != [] <==> BeforeFirst(want, messages, faults, script) <= FailAt(script, n) < n)
    decreases |script|
  {
    hide AsksInAll, BeforeFirst, Waits, NoMatch, Asks, FailAt;
    if TakesLast(want, messages, faults, script) {
      LosesLast(want, messages, faults, script);
    } else {
      var rest := Drop(script, Asks(want, messages, faults));
      LosesIff(want, rest[0].messages, |rest[0].faults|, rest[1..]);
      LosesMore(want, messages, faults, script);
    }
  }

  /** The answers of a whole call, and those before it has taken a message. */
  function HeardAsks(same: bool, want: Option<Want>, messages: seq<Message>, faults: nat, script: seq<Answer>): nat {
    if same then AsksInAll(want, messages, faults, script) else 1 + AsksInAll(want, [], 0, Drop(script, 1))
  }

  function HeardFirst(same: bool, want: Option<Want>, messages: seq<Message>, faults: nat, script: seq<Answer>): nat {
    if same then BeforeFirst(want, messages, faults, script) else 1 + BeforeFirst(want, [], 0, Drop(script, 1))
  }

  /** So for the call: it raises, and loses messages, exactly if its first failing answer comes where it does. */
  lemma CallLosesIff(same: bool, want: Option<Want>, messages: seq<Message>, faults: nat, script: seq<Answer>)
    ensures var n, w := HeardAsks(same, want, messages, faults, script), Heard(same, want, messages, faults, script);
            && (w.ok <==> FailAt(script, n) == n)
            && (!w.ok && w.took != [] <==> HeardFirst(same, want, messages, faults, script) <= FailAt(script, n) < n)
  {
    hide AsksInAll, BeforeFirst, Waits, FailAt, Drop;
    if same { LosesIff(want, messages, faults, script); } else { AnotherLosesIff(want, script); }
  }

  /** On another handle, attaching to it first. */
  lemma AnotherLosesIff(want: Option<Want>, script: seq<Answer>)
    ensures var n, w := 1 + AsksInAll(want, [], 0, Drop(script, 1)), Waits(want, [], 0, Drop(script, 1));
            && (!FailsNext(script) && w.ok <==> FailAt(script, n) == n)
            && (!FailsNext(script) && !w.ok && w.took != [] <==>
                1 + BeforeFirst(want, [], 0, Drop(script, 1)) <= FailAt(script, n) < n)
  {
    var rest := Drop(script, 1);
    LosesIff(want, [], 0, rest);
    NoneAsked(script);
    FailNext(script, 0);
    FailPrefix(script, 1, 1 + AsksInAll(want, [], 0, rest));
    if !FailsNext(script) { FailBoth(script, 1, AsksInAll(want, [], 0, rest)); }
    hide AsksInAll, BeforeFirst, Waits, FailAt, Drop, FailsNext;
  }

  lemma Lengthened(a: seq<Message>, b: seq<Message>)
    ensures a + b != a <==> b != []
  {
    assert |a + b| == |a| + |b|;
  }

  const FINE := Answer(false, [], [])

  function Fines(n: nat): (r: seq<Answer>)
    ensures |r| == n && forall i :: 0 <= i < n ==> r[i] == FINE
  {
    seq(n, _ => FINE)
  }

  /** A call that attaches, finds nothing, reads the frames that complete `m`, and takes it; and then an
      answer fails. */
  function FailsAfterTaking(m: Message): seq<Answer> {
    Fines(4) + [Answer(false, [m], [])] + Fines(2) + [Answer(true, [], [])]
  }

  /** The same where `m` is passed over and it is the next read that raises. */
  function ReadRaises(m: Message): seq<Answer> {
    Fines(4) + [Answer(false, [m], [])] + Fines(4) + [Answer(true, [], [])]
  }

  lemma {:induction false} FinesPass(n: nat, rest: seq<Answer>)
    ensures FailAt(Fines(n) + rest, n) == n && Drop(Fines(n) + rest, n) == rest
  {
    if n > 0 {
      FinesPass(n - 1, rest);
      assert (Fines(n) + rest)[1..] == Fines(n - 1) + rest;
    } else {
      assert Fines(0) + rest == rest;
    }
  }

  /** Attached, with nothing waiting: the first take finds nothing, and the frames are read. */
  lemma FirstRead(want: Option<Want>, m: Message, after: seq<Answer>)
    ensures Waits(want, [], 0, Fines(3) + ([Answer(false, [m], [])] + after)) == Waits(want, [m], 0, after)
  {
    var rest := [Answer(false, [m], [])] + after;
    FinesPass(3, rest);
    assert Takes(want, []) == 0 && NoMatch(want, []) && Asks(want, [], 0) == 3;
    assert rest[1..] == after && rest[0] == Answer(false, [m], []);
    var later := Waits(want, [m], 0, after);
    assert [][..0] + later.took == later.took;
  }

  /** Both lose it, whatever is waited for. */
  lemma MessagesCanBeLost(want: Option<Want>, m: Message)
    ensures Heard(false, want, [], 0, FailsAfterTaking(m)) == Waited(false, [m])
    ensures want.Some? && !Matches(want.value, m) ==> Heard(false, want, [], 0, ReadRaises(m)) == Waited(false, [m])
  {
    var fails := [Answer(true, [], [])];
    var s1, s2 := Fines(2) + fails, Fines(4) + fails;
    assert FailsAfterTaking(m)[1..] == Fines(3) + ([Answer(false, [m], [])] + s1);
    assert ReadRaises(m)[1..] == Fines(3) + ([Answer(false, [m], [])] + s2);
    FirstRead(want, m, s1);
    FirstRead(want, m, s2);
    assert Takes(want, [m]) == 1;
    FinesPass(2, fails);
    FailFirst(s1, 2, Asks(want, [m], 0));
    assert Waits(want, [m], 0, s1) == Waited(false, [m][..1]);
    if want.Some? && !Matches(want.value, m) {
      FinesPass(4, fails);
      assert NoMatch(want, [m]) && Asks(want, [m], 0) == 4;
      assert Waits(want, [m], 0, s2) == Waited(false, [m][..1]);
    }
  }

  // ---- the listener ---------------------------------------------------------------------------

  class Listener {
    var script: seq<Answer>
    var handle: nat              // the channel's handle now
    var h: Option<nat>           // the handle this reading is of
    var faults: seq<Fault>
    var lost: nat
    var engineMessages: seq<Message>
    var engineFaults: seq<Fault>
    var engineDropped: nat
    ghost var taken: seq<Fault>
    ghost var batches: seq<Batch>
    ghost var gone: seq<Fault>
    ghost var consumed: seq<Message>  // taken from the engine in this reading
    ghost var arrived: seq<Message>   // completed in this reading

    ghost predicate Valid()
      reads this
    {
      Accounted(taken, batches, gone, faults, lost) && arrived == consumed + engineMessages
    }

    constructor (channelHandle: nat, answers: seq<Answer>)
      ensures Valid() && h == None && handle == channelHandle && script == answers
      ensures engineMessages == [] && consumed == [] && faults == []
    {
      NothingTaken();
      script, handle, h := answers, channelHandle, None;
      faults, lost, engineMessages, engineFaults, engineDropped := [], 0, [], [], 0;
      taken, batches, gone, consumed, arrived := [], [], [], [], [];
    }

    /** One call into the library. */
    method Ask() returns (fails: bool)
      modifies this`script
      ensures fails == FailsNext(old(script)) && script == Drop(old(script), 1)
    {
      fails := false;
      if script != [] { fails, script := script[0].fails, script[1..]; }
    }

    /** The reading goes on: nothing was taken, kept or let go. */
    twostate predicate Continues()
      reads this
    {
      && h == old(h) && faults == old(faults) && lost == old(lost) && taken == old(taken) && batches == old(batches)
      && engineFaults == old(engineFaults) && engineMessages == old(engineMessages) && consumed == old(consumed)
      && engineDropped == old(engineDropped)
    }

    /** Another handle is another reading, with nothing of the last one's. */
    method Attach()
      modifies this`h, this`faults, this`lost, this`engineMessages, this`engineFaults, this`engineDropped
      modifies this`taken, this`batches, this`gone, this`consumed, this`arrived
      ensures Valid() && h == Some(handle) && faults == [] && lost == 0 && engineMessages == [] && engineFaults == []
      ensures taken == [] && batches == [] && consumed == [] && engineDropped == 0
    {
      NothingTaken();
      hide Accounted;
      faults, lost, h := [], 0, Some(handle);
      engineMessages, engineFaults, engineDropped := [], [], 0;
      taken, batches, gone, consumed, arrived := [], [], [], [], [];
    }

    /** The channel's handle, listening; false where attaching to it raises. */
    method Handle() returns (ok: bool)
      requires Valid()
      modifies this
      ensures Valid() && handle == old(handle)
      ensures ok <==> old(h) == Some(handle) || !FailsNext(old(script))
      ensures ok ==> h == Some(handle) && script == if old(h) == Some(handle) then old(script) else Drop(old(script), 1)
      ensures old(h) == Some(handle) || !ok ==> Continues()
      ensures ok && old(h) != Some(handle) ==>
                faults == [] && lost == 0 && taken == [] && batches == [] && consumed == []
      ensures ok && old(h) != Some(handle) ==> engineMessages == [] && engineFaults == []
    {
      hide Accounted;
      if h == Some(handle) { return true; }
      var fails := Ask();
      if fails { return false; }
      Attach();
      ok := true;
    }

    /** The engine's faults into the kept ones, the oldest going when they are full. */
    method PullFaults() returns (ok: bool)
      requires Valid()
      modifies this`script, this`faults, this`lost, this`engineFaults, this`taken, this`gone
      ensures Valid() && taken + engineFaults == old(taken) + old(engineFaults) && old(taken) <= taken
      ensures lost >= old(lost) && (ok ==> engineFaults == [])
      ensures ok <==> FailAt(old(script), |old(engineFaults)| + 1) == |old(engineFaults)| + 1
      ensures ok ==> script == Drop(old(script), |old(engineFaults)| + 1)
    {
      hide Accounted, FailAt, Drop, FailsNext;
      ghost var n := 0;
      NoneAsked(script);
      while true
        invariant Valid() && taken + engineFaults == old(taken) + old(engineFaults) && old(taken) <= taken
        invariant lost >= old(lost) && n + |engineFaults| == |old(engineFaults)|
        invariant FailAt(old(script), n) == n && script == Drop(old(script), n)
        decreases |engineFaults|
      {
        FailNext(old(script), n);
        var fails := Ask();
        if fails {
          FailFirst(old(script), n, |old(engineFaults)| + 1);
          return false;
        }
        if engineFaults == [] { return true; }
        var f := engineFaults[0];
        OneTaken(taken, batches, gone, faults, lost, f);
        AtMost(taken, batches, gone, faults, lost);
        if |faults| == QUEUE { lost := lost + 1; }
        gone, taken := Gone(gone, faults), taken + [f];
        faults, engineFaults, n := Kept(faults, f), engineFaults[1..], n + 1;
      }
    }

    /** The faults since the last call, oldest first. */
    method Faults() returns (ok: bool, out: seq<Fault>)
      requires Valid()
      modifies this
      ensures Valid()
      ensures ok ==>
                && faults == [] && gone == [] && engineFaults == []
                && batches != [] && out == batches[|batches| - 1].delivered
      ensures ok && old(h) == Some(handle) ==>
                && Delivered(batches) == Delivered(old(batches)) + out && |batches| == |old(batches)| + 1
                && taken == old(taken) + old(engineFaults) && lost >= old(lost)
      ensures !ok ==> out == [] && (old(h) == Some(handle) ==> batches == old(batches) && old(taken) <= taken)
      ensures var asks := if old(h) == Some(handle) then |old(engineFaults)| + 1 else 2;
              ok <==> FailAt(old(script), asks) == asks
    {
      hide Accounted, Taken, Delivered, Lost;
      out := [];
      ok := Handle();
      if !ok { return; }
      ok := PullFaults();
      if !ok { return; }
      AllDelivered(taken, batches, gone, faults, lost);
      batches, gone := batches + [Batch(gone, faults)], [];
      out := faults;
      faults := [];
    }

    // -- messages

    /** The messages of a take, one answer each; false where one of those answers fails. */
    method TakeMessages(want: Option<Want>) returns (ok: bool, out: seq<Message>)
      requires Valid()
      modifies this`script, this`engineMessages, this`consumed
      ensures Valid()
      ensures var f := FailAt(old(script), TakeAsks(want, old(engineMessages)));
              && (ok <==> f == TakeAsks(want, old(engineMessages)))
              && out == old(engineMessages)[..TakenBy(want, old(engineMessages), f)]
              && engineMessages == old(engineMessages)[|out|..]
      ensures consumed == old(consumed) + out
      ensures ok ==> script == Drop(old(script), TakeAsks(want, old(engineMessages)))
    {
      hide Accounted, FailAt, Drop, FailsNext, Takes, NoMatch, Matches, TakeAsks, Taking;
      ghost var s0, m0 := script, engineMessages;
      out, ok := [], false;
      TakeBegins(want, m0, s0);
      var fails := Ask();  // the same run still
      if fails { return; }
      while true
        invariant Valid() && consumed == old(consumed) + out
        invariant Taking(want, m0, s0, out, engineMessages, script)
        decreases |engineMessages|
      {
        TakeGoesOn(want, m0, s0, out, engineMessages, script);
        fails := Ask();
        if fails { return; }
        if engineMessages == [] { break; }
        var m := engineMessages[0];
        out, consumed, engineMessages := out + [m], consumed + [m], engineMessages[1..];
        if want.Some? && Matches(want.value, m) { break; }
      }
      ok := true;
    }

    /** Every message the engine holds, or with `want` up to the first it matches; and then its faults.
        What it took is gone from the engine, whether or not an answer fails before it can return it. */
    method Take(want: Option<Want>) returns (ok: bool, out: seq<Message>)
      requires Valid()
      modifies this`script, this`faults, this`lost, this`engineFaults, this`taken, this`gone, this`engineMessages
      modifies this`consumed
      ensures Valid() && old(taken) <= taken
      ensures var f := FailAt(old(script), Asks(want, old(engineMessages), |old(engineFaults)|));
              && (ok <==> f == Asks(want, old(engineMessages), |old(engineFaults)|))
              && out == old(engineMessages)[..TakenBy(want, old(engineMessages), f)]
              && engineMessages == old(engineMessages)[|out|..]
      ensures consumed == old(consumed) + out
      ensures ok ==>
                engineFaults == [] && script == Drop(old(script), Asks(want, old(engineMessages), |old(engineFaults)|))
    {
      hide Accounted, FailAt, Drop, NoMatch;
      ghost var s0, n, more := script, TakeAsks(want, engineMessages), |engineFaults| + 1;
      FailPrefix(s0, n, n + more);
      ok, out := TakeMessages(want);
      if !ok { return; }
      FailBoth(s0, n, more);
      ok := PullFaults();
    }

    /** Frames are read: messages complete, faults are found. False where the read raises. */
    method ReadFrames() returns (ok: bool)
      requires Valid() && script != []
      modifies this`script, this`engineMessages, this`engineFaults, this`arrived
      ensures Valid() && script == old(script)[1..] && ok == !old(script)[0].fails
      ensures engineMessages == old(engineMessages) + old(script)[0].messages
      ensures engineFaults == old(engineFaults) + old(script)[0].faults
    {
      hide Accounted;
      var a := script[0];
      script := script[1..];
      engineMessages, engineFaults := engineMessages + a.messages, engineFaults + a.faults;
      arrived := arrived + a.messages;
      ok := !a.fails;
    }

    /** The match, or every message without one; the others counted. */
    method Sift(want: Option<Want>, came: seq<Message>, others: multiset<(nat, nat)>, ghost passed: seq<Message>)
      returns (got: seq<Message>, others': multiset<(nat, nat)>, ghost passed': seq<Message>)
      requires others == Counted(passed) && NoMatch(want, passed)
      requires NoMatch(want, came) || (came != [] && NoMatch(want, came[..|came| - 1]))
      ensures passed' + got == passed + came && others' == Counted(passed') && NoMatch(want, passed')
      ensures want.Some? ==> |got| <= 1 && (got != [] ==> Matches(want.value, got[0]))
      ensures want.Some? ==> (got != [] <==> !NoMatch(want, came))
      ensures want.None? ==> got == came && passed' == passed
    {
      hide Counted, NoMatch, Matches;
      others', passed' := others, passed;
      if want.None? {
        NoMatchAtAll(want, passed);
        return came, others', passed';
      }
      var i := 0;
      while i < |came|
        invariant 0 <= i <= |came| && passed' == passed + came[..i]
        invariant others' == Counted(passed') && NoMatch(want, passed')
        invariant forall k :: 0 <= k < i ==> !Matches(want.value, came[k])
      {
        var m := came[i];
        if Matches(want.value, m) {
          FirstMatch(want.value, came, i);
          assert !NoMatch(want, came) by { SomeMatch(want.value, came, i); }
          assert passed' + [m] == passed + came;
          return [m], others', passed';
        }
        CountedAnd(passed', m);
        NoMatchAnd(want, passed', m);
        assert came[..i + 1] == came[..i] + [m];
        others', passed' := others' + multiset{Key(m)}, passed' + [m];
        i := i + 1;
      }
      got := [];
      assert came[..i] == came;
      NoMatchIn(want.value, came);
    }

    /** Reads the channel until a message is taken, one that matches when there is a `want`, or the
        time is up. What it took is gone from the engine: returned, or passed over and counted, and, where
        it raises, lost. */
    method Until(want: Option<Want>)
      returns (ok: bool, got: seq<Message>, others: multiset<(nat, nat)>, ghost passed: seq<Message>)
      requires Valid()
      modifies this
      ensures Valid() && handle == old(handle)
      ensures var same := old(h) == Some(handle);
              var w := Heard(same, want, old(engineMessages), |old(engineFaults)|, old(script));
              ok == w.ok && consumed == Before(same, old(consumed), old(script)) + w.took
      ensures ok ==> h == Some(handle)
      ensures ok ==> consumed == (if old(h) == Some(handle) then old(consumed) else []) + passed + got
      ensures ok ==> NoMatch(want, passed) && others == Counted(passed) && (want.None? ==> passed == [])
      ensures ok && want.Some? ==> |got| <= 1 && (got != [] ==> Matches(want.value, got[0]))
      ensures ok && got == [] ==> engineMessages == []
      ensures ok && old(h) == Some(handle) ==> batches == old(batches) && old(taken) <= taken
    {
      hide Accounted, Counted, NoMatch, FailAt, Drop, FailsNext, Waits, Matches;
      got, others, passed := [], multiset{}, [];
      ok := Handle();
      if ok { ok, got, others, passed := UntilOn(want); }
    }

    /** The same, once the handle is this reading's. */
    method UntilOn(want: Option<Want>)
      returns (ok: bool, got: seq<Message>, others: multiset<(nat, nat)>, ghost passed: seq<Message>)
      requires Valid() && h == Some(handle)
      modifies this
      ensures Valid() && handle == old(handle) && h == old(h) && batches == old(batches) && old(taken) <= taken
      ensures var w := Waits(want, old(engineMessages), |old(engineFaults)|, old(script));
              ok == w.ok && consumed == old(consumed) + w.took
      ensures ok ==> consumed == old(consumed) + passed + got
      ensures ok ==> NoMatch(want, passed) && others == Counted(passed) && (want.None? ==> passed == [])
      ensures ok && want.Some? ==> |got| <= 1 && (got != [] ==> Matches(want.value, got[0]))
      ensures ok && got == [] ==> engineMessages == []
    {
      hide Accounted, Counted, NoMatch, FailAt, Drop, FailsNext, Waits, Takes, Matches, Sofar;
      others, passed := multiset{}, [];
      ghost var w0 := Waits(want, engineMessages, |engineFaults|, script);
      NothingCounted();
      NothingPassed(want);
      var over := false;
      while true
        invariant Valid() && handle == old(handle) && h == old(h) && batches == old(batches) && old(taken) <= taken
        invariant consumed == old(consumed) + passed && NoMatch(want, passed) && others == Counted(passed)
        invariant want.None? ==> passed == []
        invariant Sofar(w0, passed, Waits(want, engineMessages, |engineFaults|, script))
        decreases |script|
      {
        ghost var before, w, m := passed, Waits(want, engineMessages, |engineFaults|, script), engineMessages;
        ok, over, got, others, passed := Turn(want, others, passed);
        if !ok || over {
          SofarEnds(w0, before, w);
          Regrouped(old(consumed), before, w.took);
          Regrouped(old(consumed), passed, got);
          return;
        }
        SofarOn(w0, before, w, m, Waits(want, engineMessages, |engineFaults|, script));
        Regrouped(old(consumed), before, m);
      }
    }

    /** One take, and the read after it where it returned nothing and there is time. */
    method Turn(want: Option<Want>, others: multiset<(nat, nat)>, ghost passed: seq<Message>)
      returns (ok: bool, over: bool, got: seq<Message>, others': multiset<(nat, nat)>, ghost passed': seq<Message>)
      requires Valid() && NoMatch(want, passed) && others == Counted(passed) && (want.None? ==> passed == [])
      modifies this
      ensures Valid() && handle == old(handle) && h == old(h) && batches == old(batches) && old(taken) <= taken
      ensures var w := Waits(want, old(engineMessages), |old(engineFaults)|, old(script));
              && (!ok ==> w == Waited(false, w.took) && consumed == old(consumed) + w.took)
              && (ok && over ==>
                  w == Waited(true, w.took) && consumed == old(consumed) + w.took && passed + w.took == passed' + got)
              && (ok && !over ==>
                  var later := Waits(want, engineMessages, |engineFaults|, script);
                  && w == Waited(later.ok, old(engineMessages) + later.took)
                  && consumed == old(consumed) + old(engineMessages))
      ensures ok ==> NoMatch(want, passed') && others' == Counted(passed') && (want.None? ==> passed' == [])
      ensures ok && want.Some? ==> |got| <= 1 && (got != [] ==> Matches(want.value, got[0]))
      ensures ok && over && got == [] ==> engineMessages == []
      ensures ok && !over ==> got == [] && passed' == passed + old(engineMessages) && |script| < |old(script)|
    {
      hide Accounted, Counted, NoMatch, FailAt, Drop, FailsNext, Waits, Takes, Matches;
      others', passed', got, over := others, passed, [], false;
      ghost var m := engineMessages;
      WaitsStep(want, m, |engineFaults|, script);
      TookExactly(want, m);
      var now;
      ok, now := Take(want);
      if !ok { return; }
      got, others', passed' := Sift(want, now, others, passed);
      over := got != [] || script == [];
      if over { return; }
      assert now == m && passed' == passed + m && engineMessages == [] && engineFaults == [];
      ghost var rest := script;
      ok := ReadFrames();
      assert engineMessages == rest[0].messages && engineFaults == rest[0].faults;
    }

    /** Messages and faults dropped untaken since the reading began. */
    method Dropped() returns (ok: bool, n: nat)
      requires Valid()
      modifies this
      ensures Valid()
      ensures ok ==> n == engineDropped + Lost(batches) + |gone|
      ensures var same := old(h) == Some(handle);
              ok <==> FailAt(old(script), if same then 1 else 2) == if same then 1 else 2
    {
      hide Accounted;
      n := 0;
      ok := Handle();
      if !ok { return; }
      var fails := Ask();
      ok := !fails;
      LostSoFar(taken, batches, gone, faults, lost);
      n := engineDropped + lost;
    }

    /** Every completed message waiting, or the first to complete. */
    method Messages() returns (ok: bool, got: seq<Message>)
      requires Valid()
      modifies this
      ensures Valid() && handle == old(handle)
      ensures var same := old(h) == Some(handle);
              var w := Heard(same, None, old(engineMessages), |old(engineFaults)|, old(script));
              ok == w.ok && consumed == Before(same, old(consumed), old(script)) + w.took
      ensures ok ==> consumed == (if old(h) == Some(handle) then old(consumed) else []) + got
      ensures ok && got == [] ==> engineMessages == []
    {
      hide Accounted, Waits, Heard;
      var others; ghost var passed;
      ok, got, others, passed := Until(None);
    }

    /** The first message of a group. Takes the messages up to it and no further, counting the rest of
        them; the faults stay for `Faults`. */
    method ExpectPgn(pgn: int, sa: Option<int>) returns (r: Expected, ghost passed: seq<Message>)
      requires Valid()
      modifies this
      ensures Valid() && handle == old(handle)
      ensures r.Refused? <==> !Askable(pgn, sa)
      ensures r.Refused? ==> Continues()
      ensures !r.Refused? ==>
                var same := old(h) == Some(handle);
                var w := Heard(same, Some(WantOf(pgn, sa)), old(engineMessages), |old(engineFaults)|, old(script));
                (r.Failed? <==> !w.ok) && consumed == Before(same, old(consumed), old(script)) + w.took
      ensures !r.Refused? ==>
                var same, want := old(h) == Some(handle), Some(WantOf(pgn, sa));
                var n := HeardAsks(same, want, old(engineMessages), |old(engineFaults)|, old(script));
                var first := HeardFirst(same, want, old(engineMessages), |old(engineFaults)|, old(script));
                && (r.Failed? <==> FailAt(old(script), n) < n)
                && (r.Failed? && consumed != Before(same, old(consumed), old(script)) <==>
                    first <= FailAt(old(script), n) < n)
      ensures r.Came? || r.TimedOut? ==> r.want == WantOf(pgn, sa)
      ensures r.Came? || r.TimedOut? ==> NoMatch(Some(r.want), passed)
      ensures r.Came? ==> Matches(r.want, r.message)
      ensures r.Came? ==> consumed == (if old(h) == Some(handle) then old(consumed) else []) + passed + [r.message]
      ensures r.TimedOut? ==> r.others == Counted(passed) && engineMessages == []
      ensures r.TimedOut? ==> consumed == (if old(h) == Some(handle) then old(consumed) else []) + passed
      ensures (r.Came? || r.TimedOut?) && old(h) == Some(handle) ==> batches == old(batches) && old(taken) <= taken
      ensures r.Came? ==> IsOf(pgn, sa, r.message)
      ensures r.Came? || r.TimedOut? ==> forall i :: 0 <= i < |passed| ==> !IsOf(pgn, sa, passed[i])
    {
      hide Accounted, Counted, NoMatch, Waits, Heard, Before, HeardAsks, HeardFirst, FailAt;
      passed := [];
      if !Askable(pgn, sa) { return Refused, passed; }
      var want := WantOf(pgn, sa);
      ghost var same := h == Some(handle);
      CallLosesIff(same, Some(want), engineMessages, |engineFaults|, script);
      Lengthened(Before(same, consumed, script),
                 Heard(same, Some(want), engineMessages, |engineFaults|, script).took);
      var ok, got, others;
      ok, got, others, passed := Until(Some(want));
      forall i | 0 <= i < |passed| && ok ensures !IsOf(pgn, sa, passed[i]) {
        WantedIsOf(pgn, sa, passed[i]);
        NoMatchMeans(want, passed, i);
      }
      if ok && got != [] { WantedIsOf(pgn, sa, got[0]); }
      if !ok {
        r := Failed;
      } else if got != [] {
        assert got == [got[0]];
        r := Came(want, got[0]);
      } else {
        r := TimedOut(want, others, |faults|);
      }
    }
  }

  /** A run that loses a message: the call fails, and the message is gone from the engine. */
  method LoseOne(pgn: int, sa: Option<int>, m: Message) returns (l: Listener, r: Expected)
    requires Askable(pgn, sa)
    ensures fresh(l) && l.Valid() && l.consumed == [m] && r.Failed?
  {
    l := new Listener(0, FailsAfterTaking(m));
    MessagesCanBeLost(Some(WantOf(pgn, sa)), m);
    assert !FailsNext(FailsAfterTaking(m));
    hide Waits, Heard;
    ghost var passed;
    r, passed := l.ExpectPgn(pgn, sa);
    assert [] + [m] == [m];
  }
}
