/** What every run of the Vector bookkeeping keeps, and what an admitted port may rely on. */
module VectorSafety {
  import opened Basics
  import opened VectorPins

  // ---- counting handles ----------------------------------------------------------------------

  lemma HeldOnAdded(held: map<Port, Handle>, p: Port, h: Handle, m: Mask)
    requires p !in held
    ensures HeldOn(held[p := h], m) == if h.mask == m then HeldOn(held, m) + {p} else HeldOn(held, m)
    ensures |HeldOn(held[p := h], m)| == |HeldOn(held, m)| + if h.mask == m then 1 else 0
  {}

  lemma HeldOnRemoved(held: map<Port, Handle>, p: Port, m: Mask)
    requires p in held
    ensures HeldOn(held - {p}, m) == HeldOn(held, m) - {p}
    ensures |HeldOn(held - {p}, m)| == |HeldOn(held, m)| - if held[p].mask == m then 1 else 0
  {}

  lemma SomeHeld(held: map<Port, Handle>, p: Port)
    requires p in held
    ensures p in HeldOn(held, held[p].mask) && |HeldOn(held, held[p].mask)| > 0
  {}

  // ---- one step ------------------------------------------------------------------------------

  /** The wire of `m` may become anything while `m` has no record we vouch for. */
  lemma WireFree(s: State, m: Mask, w: Wire)
    requires Inv(s) && (m in s.table ==> s.table[m].stale)
    ensures Inv(s.(wire := s.wire[m := w]))
  {}

  lemma UnstaleIsHeld(s: State, m: Mask)
    requires Owned(s) && DriverKnows(s) && m in s.table && !s.table[m].stale
    ensures InitHeld(s.ports, m)
  {
    assert s.ports[s.table[m].owner] == Access(m, true);
  }

  /** Nobody holds the access, so no record of the channel is vouched for. */
  lemma UnheldIsStale(s: State, m: Mask)
    requires Inv(s) && !InitHeld(s.ports, m)
    ensures m in s.table ==> s.table[m].stale
  {
    if m in s.table && !s.table[m].stale {
      UnstaleIsHeld(s, m);
    }
  }

  lemma PortAdded(s: State, p: Port, acc: Access)
    requires Inv(s) && p !in s.ports && p != INVALID_PORT
    requires acc.init ==> !InitHeld(s.ports, acc.mask)
    ensures Inv(s.(ports := s.ports[p := acc]))
  {}

  lemma PortRemoved(s: State, p: Port, closes: bool)
    requires Inv(s) && p !in s.held
    ensures Inv(s.(ports := ClosePort(s.ports, p, closes)))
  {}

  function AfterJoin(s: State, m: Mask, p: Port, init: bool, r: Request): State
    requires m in s.table && m in s.epoch
  {
    s.(table := Referenced(s.table, m), held := s.held[p := Handle(m, s.table[m].gen, s.epoch[m], init, r)])
  }

  lemma JoinedCounted(s: State, m: Mask, p: Port, init: bool, r: Request)
    requires Counted(s) && p !in s.held && m in s.table && m in s.epoch
    ensures Counted(AfterJoin(s, m, p, init, r))
  {
    var h := Handle(m, s.table[m].gen, s.epoch[m], init, r);
    var s' := AfterJoin(s, m, p, init, r);
    forall k | k in s'.table ensures s'.table[k].ports == |HeldOn(s'.held, k)| > 0 {
      HeldOnAdded(s.held, p, h, k);
    }
  }

  lemma JoinedEpochs(s: State, m: Mask, p: Port, init: bool, r: Request)
    requires EpochsAgree(s) && p !in s.held && m in s.table && Agrees(s.table[m], r)
    ensures EpochsAgree(AfterJoin(s, m, p, init, r))
  {
    var s' := AfterJoin(s, m, p, init, r);
    forall x, y | x in s'.held && y in s'.held && s'.held[x].mask == s'.held[y].mask
                  && s'.held[x].epoch == s'.held[y].epoch
      ensures SameConfiguration(s'.held[x].asked, s'.held[y].asked)
    {
      if x != p && y != p { assert s'.held[x] == s.held[x] && s'.held[y] == s.held[y]; }
    }
  }

  lemma JoinedOwned(s: State, m: Mask, p: Port, init: bool, r: Request)
    requires Owned(s) && Truthful(s) && p !in s.held && m in s.table && m in s.epoch && !init
    ensures Owned(AfterJoin(s, m, p, init, r)) && Truthful(AfterJoin(s, m, p, init, r))
  {}

  /** Taking a reference and then the handle, with the record as asked, keeps everything. */
  lemma Joined(s: State, m: Mask, p: Port, init: bool, r: Request)
    requires Inv(s) && p in s.ports && p !in s.held && s.ports[p] == Access(m, init)
    requires m in s.table && Agrees(s.table[m], r) && !init
    ensures Inv(AfterJoin(s, m, p, init, r))
  {
    JoinedCounted(s, m, p, init, r);
    JoinedEpochs(s, m, p, init, r);
    JoinedOwned(s, m, p, init, r);
    assert DriverKnows(AfterJoin(s, m, p, init, r));
  }

  lemma JoinUndone(s: State, m: Mask, p: Port)
    requires Inv(s) && m in s.table && p != INVALID_PORT && s.table[m].owner != p
    ensures Unreferenced(Referenced(s.table, m), m, p, s.table[m].gen) == s.table
  {
    assert s.table[m].(ports := s.table[m].ports + 1).(ports := s.table[m].ports) == s.table[m];
  }

  lemma JoinKeeps(s: State, r: Request, a: Answers)
    requires Inv(s) && a.port in s.ports && a.port !in s.held && s.ports[a.port] == Access(a.mask, a.granted)
    requires a.port != INVALID_PORT && !a.granted
    ensures Inv(OpenJoin(s, r, a).0)
  {
    if JoinCode(s.table, a.mask, r) != 0 {
      PortRemoved(s, a.port, a.closes);
    } else if a.activateStatus != 0 {
      JoinUndone(s, a.mask, a.port);
      PortRemoved(s, a.port, a.closes);
    } else {
      Joined(s, a.mask, a.port, a.granted, r);
    }
  }

  /** The channel configured and recorded for `p`, with no handle taken yet. */
  function AfterNote(s: State, m: Mask, p: Port, r: Request): State {
    NotedState(s.(wire := s.wire[m := Configured(r, s.wire, m).(silent := r.silent)]), m, r, p)
  }

  function AfterFirst(s: State, m: Mask, p: Port, r: Request): State {
    var s' := AfterNote(s, m, p, r);
    s'.(held := s.held[p := Handle(m, s'.table[m].gen, s.epochs + 1, true, r)])
  }

  function AfterUndo(s: State, m: Mask, p: Port, r: Request): State {
    var s' := AfterNote(s, m, p, r);
    s'.(table := Unreferenced(s'.table, m, p, s'.table[m].gen))
  }

  lemma NothingHeld(s: State, m: Mask)
    requires Counted(s) && m !in s.table
    ensures HeldOn(s.held, m) == {}
  {
    assert forall p | p in s.held :: s.held[p].mask in s.table;
  }

  lemma FirstCounted(s: State, m: Mask, p: Port, r: Request)
    requires Counted(s) && p !in s.held
    ensures Counted(AfterFirst(s, m, p, r))
  {
    var s' := AfterFirst(s, m, p, r);
    if m !in s.table { NothingHeld(s, m); }
    forall k | k in s'.table ensures s'.table[k].ports == |HeldOn(s'.held, k)| > 0 {
      HeldOnAdded(s.held, p, s'.held[p], k);
    }
  }

  /** A handle of an epoch none is of yet disagrees with no other. */
  lemma FirstSiblings(held: map<Port, Handle>, p: Port, h: Handle)
    requires SiblingsAgree(held) && p !in held && forall x :: x in held ==> held[x].epoch < h.epoch
    ensures SiblingsAgree(held[p := h])
  {}

  lemma FirstEpochs(s: State, m: Mask, p: Port, r: Request)
    requires EpochsAgree(s) && p !in s.held
    ensures EpochsAgree(AfterFirst(s, m, p, r))
  {
    var s' := AfterFirst(s, m, p, r);
    assert SiblingsAgree(s'.held) by { FirstSiblings(s.held, p, s'.held[p]); }
    hide SiblingsAgree;
    assert EpochsBounded(s');
  }

  lemma FirstTable(s: State, m: Mask, p: Port, r: Request)
    ensures AfterFirst(s, m, p, r).table[m].owner == p && !AfterFirst(s, m, p, r).table[m].stale
    ensures Agrees(AfterFirst(s, m, p, r).table[m], r)
    ensures forall k :: k in AfterFirst(s, m, p, r).table && k != m ==>
              k in s.table && AfterFirst(s, m, p, r).table[k] == s.table[k]
  {}

  /** No open handle of the channel has the access. */
  ghost predicate Unowned(held: map<Port, Handle>, m: Mask) {
    forall p :: p in held && held[p].mask == m ==> !held[p].init
  }

  lemma StaleIsUnowned(s: State, m: Mask)
    requires Inv(s) && (m in s.table ==> s.table[m].stale)
    ensures Unowned(s.held, m)
  {}

  lemma FirstOwned(s: State, m: Mask, p: Port, r: Request)
    requires Owned(s) && p !in s.held && p != INVALID_PORT && Unowned(s.held, m)
    ensures Owned(AfterFirst(s, m, p, r))
  {
    FirstTable(s, m, p, r);
  }

  lemma FirstTruthful(s: State, m: Mask, p: Port, r: Request)
    requires Owned(s) && Truthful(s) && p !in s.held
    ensures Truthful(AfterFirst(s, m, p, r))
  {
    FirstTable(s, m, p, r);
  }

  /** Configuring and recording the channel for `p`, and taking the handle. */
  lemma Recorded(s: State, m: Mask, p: Port, r: Request)
    requires Inv(s) && p in s.ports && p !in s.held && s.ports[p] == Access(m, true) && p != INVALID_PORT
    requires m in s.table ==> s.table[m].stale
    ensures Inv(AfterFirst(s, m, p, r))
  {
    StaleIsUnowned(s, m);
    FirstCounted(s, m, p, r);
    FirstEpochs(s, m, p, r);
    FirstOwned(s, m, p, r);
    FirstTruthful(s, m, p, r);
    assert DriverKnows(AfterFirst(s, m, p, r));
  }

  /** Recording and releasing at once restores a table without the channel, and leaves one with
      older siblings on a stale record. */
  lemma UndoTable(s: State, m: Mask, p: Port, r: Request)
    requires m in s.table ==> s.table[m].ports > 0
    ensures AfterUndo(s, m, p, r).table ==
              if m in s.table then s.table[m := Restated(s.table[m], r, INVALID_PORT).(stale := true)] else s.table
  {
    var s' := AfterNote(s, m, p, r);
    assert s'.table[m].owner == p && s'.table[m].ports == (if m in s.table then s.table[m].ports else 0) + 1;
    if m in s.table {
      assert s'.table[m].(ports := s.table[m].ports, stale := true, owner := INVALID_PORT)
          == Restated(s.table[m], r, INVALID_PORT).(stale := true);
    }
  }

  lemma UndoCounted(s: State, m: Mask, p: Port, r: Request)
    requires Counted(s)
    ensures Counted(AfterUndo(s, m, p, r))
  {
    UndoTable(s, m, p, r);
    var t, t' := s.table, AfterUndo(s, m, p, r).table;
    assert forall k | k in t' :: k in t && t'[k].ports == t[k].ports && t'[k].gen == t[k].gen;
    assert t'.Keys == t.Keys;
    hide Counted, Restated;
    RecountedAgain(s, AfterUndo(s, m, p, r));
  }

  lemma RecountedAgain(s: State, s': State)
    requires Counted(s) && s'.held == s.held && s'.genSeq >= s.genSeq && s'.table.Keys == s.table.Keys
    requires forall k | k in s'.table :: s'.table[k].ports == s.table[k].ports && s'.table[k].gen == s.table[k].gen
    ensures Counted(s')
  {}

  lemma UndoEpochs(s: State, m: Mask, p: Port, r: Request)
    requires EpochsAgree(s)
    ensures EpochsAgree(AfterUndo(s, m, p, r))
  {
    var s' := AfterUndo(s, m, p, r);
    forall x | x in s.held
      ensures s.held[x].mask in s'.epoch && s.held[x].epoch <= s'.epoch[s.held[x].mask]
      ensures s.held[x].epoch == s'.epoch[s.held[x].mask] ==> s.held[x].mask != m
    {}
    assert EpochsBounded(s');
    forall x | x in s'.held && s'.held[x].mask in s'.table && s'.held[x].epoch == s'.epoch[s'.held[x].mask]
      ensures Agrees(s'.table[s'.held[x].mask], s'.held[x].asked)
    {
      assert s'.table[s.held[x].mask] == s.table[s.held[x].mask];
    }
  }

  lemma UndoOwned(s: State, m: Mask, p: Port, r: Request)
    requires Owned(s) && Truthful(s) && (m in s.table ==> s.table[m].ports > 0) && Unowned(s.held, m)
    ensures Owned(AfterUndo(s, m, p, r)) && Truthful(AfterUndo(s, m, p, r))
  {
    var s' := AfterUndo(s, m, p, r);
    forall k | k in s'.table && k != m ensures s'.table[k] == s.table[k] && k in s.table {}
  }

  /** The driver refused to activate a channel just configured: older siblings keep a stale
      record, and with no siblings the record goes. */
  lemma RecordUndone(s: State, m: Mask, p: Port, r: Request)
    requires Inv(s) && p !in s.held && (m in s.table ==> s.table[m].stale)
    ensures Inv(AfterUndo(s, m, p, r))
  {
    StaleIsUnowned(s, m);
    UndoCounted(s, m, p, r);
    UndoEpochs(s, m, p, r);
    UndoOwned(s, m, p, r);
    assert DriverKnows(AfterUndo(s, m, p, r));
  }

  lemma FirstKeeps(s: State, r: Request, a: Answers)
    requires Inv(s) && a.port in s.ports && a.port !in s.held && s.ports[a.port] == Access(a.mask, true)
    requires a.port != INVALID_PORT && a.granted
    requires a.mask in s.table ==> s.table[a.mask].stale
    ensures Inv(OpenFirst(s, r, a).0)
  {
    if a.configStatus != 0 {
      FailedKeeps(s, a, a.mangled);
    } else {
      WireFree(s, a.mask, Configured(r, s.wire, a.mask));
      OutputKeeps(s.(wire := s.wire[a.mask := Configured(r, s.wire, a.mask)]), r, a);
    }
  }

  /** The channel of `m` is set to `r` but for its output mode. */
  predicate Prepared(s: State, m: Mask, r: Request) {
    m in s.wire && s.wire[m] == Configured(r, s.wire, m)
  }

  lemma OutputKeeps(s: State, r: Request, a: Answers)
    requires Inv(s) && a.port in s.ports && a.port !in s.held && s.ports[a.port] == Access(a.mask, true)
    requires a.port != INVALID_PORT && a.granted && Prepared(s, a.mask, r)
    requires a.mask in s.table ==> s.table[a.mask].stale
    ensures Inv(SetOutput(s, r, a).0)
  {
    if !a.outputPresent {
      PortRemoved(s, a.port, a.closes);
    } else if a.outputStatus != 0 {
      FailedKeeps(s, a, a.outputMangled);
    } else {
      RecordKeeps(s, r, a);
    }
  }

  lemma RecordKeeps(s: State, r: Request, a: Answers)
    requires Inv(s) && a.port in s.ports && a.port !in s.held && s.ports[a.port] == Access(a.mask, true)
    requires a.port != INVALID_PORT && a.granted
    requires a.mask in s.table ==> s.table[a.mask].stale
    ensures Inv(RecordOpen(s.(wire := s.wire[a.mask := Configured(r, s.wire, a.mask).(silent := r.silent)]), r, a).0)
  {
    if a.mask !in s.table && |s.table| >= MAX_CHANNELS {
      FailedKeeps(s, a, Configured(r, s.wire, a.mask).(silent := r.silent));
    } else if a.activateStatus != 0 {
      RecordUndone(s, a.mask, a.port, r);
      PortRemoved(AfterUndo(s, a.mask, a.port, r), a.port, a.closes);
    } else {
      Recorded(s, a.mask, a.port, r);
    }
  }

  /** Giving up after the channel was changed but not recorded. */
  lemma FailedKeeps(s: State, a: Answers, w: Wire)
    requires Inv(s) && a.port !in s.held && (a.mask in s.table ==> s.table[a.mask].stale)
    ensures Inv(Failed(s.(wire := s.wire[a.mask := w]), a, 0).0)
  {
    WireFree(s, a.mask, w);
    PortRemoved(s.(wire := s.wire[a.mask := w]), a.port, a.closes);
  }

  lemma OpenKeeps(s: State, r: Request, a: Answers)
    requires Inv(s) && LegalAnswers(s, a)
    ensures Inv(Open(s, r, a).0)
  {
    if a.mask != 0 && (r.fd ==> a.fdPresent) && a.openStatus == 0 && a.port != INVALID_PORT {
      var s1 := s.(ports := s.ports[a.port := Access(a.mask, a.granted)]);
      OpenUnfolds(s, s1, r, a);
      PortReady(s, s1, a);
      if a.granted { FirstKeeps(s1, r, a); } else { JoinKeeps(s1, r, a); }
    }
  }

  function AfterClose(s: State, p: Port, closes: bool): State
    requires p in s.held
  {
    Close(s, p, s.held[p].mask, s.held[p].gen, closes)
  }

  lemma CloseCounts(s: State, p: Port, m: Mask)
    requires Counted(s) && p in s.held && m == s.held[p].mask
    ensures |HeldOn(s.held - {p}, m)| == s.table[m].ports - 1
    ensures forall k | k in s.table && k != m :: HeldOn(s.held - {p}, k) == HeldOn(s.held, k)
  {
    HeldOnRemoved(s.held, p, m);
    forall k | k in s.table && k != m ensures HeldOn(s.held - {p}, k) == HeldOn(s.held, k) {
      HeldOnRemoved(s.held, p, k);
    }
  }

  /** What a release does to the table, given the count it finds. */
  lemma ReleaseShape(t: map<Mask, Record>, m: Mask, p: Port, gen: nat)
    requires m in t && t[m].gen == gen
    ensures forall k :: k in Unreferenced(t, m, p, gen) ==> k in t && Unreferenced(t, m, p, gen)[k].gen == t[k].gen
    ensures forall k :: k != m && k in t ==> k in Unreferenced(t, m, p, gen) && Unreferenced(t, m, p, gen)[k] == t[k]
    ensures m in Unreferenced(t, m, p, gen) <==> t[m].ports > 1
    ensures m in Unreferenced(t, m, p, gen) ==>
              var r := Unreferenced(t, m, p, gen)[m];
              r == if t[m].owner == p then t[m].(ports := t[m].ports - 1, stale := true, owner := INVALID_PORT)
                   else t[m].(ports := t[m].ports - 1)
  {}

  lemma CloseCounted(s: State, p: Port, closes: bool)
    requires Counted(s) && p in s.held && p != INVALID_PORT
    ensures Counted(AfterClose(s, p, closes))
  {
    var h := s.held[p];
    var t := Unreferenced(s.table, h.mask, p, h.gen);
    CloseCounts(s, p, h.mask);
    ReleaseShape(s.table, h.mask, p, h.gen);
    CountedAgain(s, p, t);
    assert AfterClose(s, p, closes).table == t && AfterClose(s, p, closes).held == s.held - {p};
  }

  lemma CountedAgain(s: State, p: Port, t: map<Mask, Record>)
    requires Counted(s) && p in s.held
    requires forall k :: k in t ==> k in s.table && t[k].gen == s.table[k].gen
    requires forall k :: k in s.table && k != s.held[p].mask ==> k in t && t[k] == s.table[k]
    requires s.held[p].mask in t <==> s.table[s.held[p].mask].ports > 1
    requires s.held[p].mask in t ==> t[s.held[p].mask].ports == s.table[s.held[p].mask].ports - 1
    ensures Counted(s.(table := t, held := s.held - {p}))
  {
    CloseCounts(s, p, s.held[p].mask);
    forall q | q in s.held - {p} ensures s.held[q].mask in t {
      SomeHeld(s.held - {p}, q);
    }
  }

  lemma CloseOwned(s: State, p: Port, closes: bool)
    requires Owned(s) && Truthful(s) && Counted(s) && p in s.held && p != INVALID_PORT
    ensures Owned(AfterClose(s, p, closes)) && Truthful(AfterClose(s, p, closes))
  {
    var h := s.held[p];
    var t := Unreferenced(s.table, h.mask, p, h.gen);
    ReleaseShape(s.table, h.mask, p, h.gen);
    OwnedAgain(s, p, t);
    assert AfterClose(s, p, closes).table == t && AfterClose(s, p, closes).held == s.held - {p};
  }

  lemma OwnedAgain(s: State, p: Port, t: map<Mask, Record>)
    requires Owned(s) && Truthful(s) && p in s.held
    requires forall k :: k in t ==> k in s.table
    requires forall k :: k in t && k != s.held[p].mask ==> t[k] == s.table[k]
    requires s.held[p].mask in t ==>
               var r := s.table[s.held[p].mask];
               t[s.held[p].mask] == if r.owner == p then r.(ports := r.ports - 1, stale := true, owner := INVALID_PORT)
                                    else r.(ports := r.ports - 1)
    ensures Owned(s.(table := t, held := s.held - {p})) && Truthful(s.(table := t, held := s.held - {p}))
  {}

  lemma CloseDriver(s: State, p: Port, closes: bool)
    requires DriverKnows(s) && p in s.held
    ensures DriverKnows(AfterClose(s, p, closes))
  {}

  lemma CloseEpochs(s: State, p: Port, closes: bool)
    requires EpochsAgree(s) && p in s.held
    ensures EpochsAgree(AfterClose(s, p, closes))
  {}

  lemma CloseKeeps(s: State, p: Port, closes: bool)
    requires Inv(s) && p in s.held
    ensures Inv(AfterClose(s, p, closes))
  {
    CloseCounted(s, p, closes);
    CloseOwned(s, p, closes);
    CloseDriver(s, p, closes);
    CloseEpochs(s, p, closes);
  }

  lemma StepKeeps(s: State, e: Event)
    requires Inv(s) && Legal(s, e)
    ensures Inv(Step(s, e))
  {
    match e
    case Opening(r, a) => OpenKeeps(s, r, a);
    case Closing(p, closes) => CloseKeeps(s, p, closes);
    case Foreign(m, w) => UnheldIsStale(s, m); WireFree(s, m, w);
  }

  /** Every state of every run keeps the bookkeeping whole. */
  lemma {:induction false} RunKeeps(s: State, events: seq<Event>)
    requires Inv(s) && LegalRun(s, events)
    ensures Inv(Run(s, events))
    decreases |events|
  {
    if events != [] {
      StepKeeps(s, events[0]);
      RunKeeps(Step(s, events[0]), events[1..]);
    }
  }

  lemma {:induction false} RunAppended(s: State, events: seq<Event>, e: Event)
    requires LegalRun(s, events) && Legal(Run(s, events), e)
    ensures LegalRun(s, events + [e]) && Run(s, events + [e]) == Step(Run(s, events), e)
    decreases |events|
  {
    if events == [] {
      assert events + [e] == [e] && [e][1..] == [];
    } else {
      RunAppended(Step(s, events[0]), events[1..], e);
      assert (events + [e])[1..] == events[1..] + [e];
    }
  }

  /** A legal call from a reachable state leads to a reachable state. */
  lemma ReachableStep(s: State, e: Event)
    requires Reachable(s) && Legal(s, e)
    ensures Reachable(Step(s, e))
  {
    var events :| LegalRun(Initial, events) && Run(Initial, events) == s;
    RunAppended(Initial, events, e);
  }

  lemma ReachableKeeps(s: State)
    requires Reachable(s)
    ensures Inv(s)
  {
    var events :| LegalRun(Initial, events) && Run(Initial, events) == s;
    RunKeeps(Initial, events);
  }

  // ---- what an admitted port may rely on -----------------------------------------------------

  predicate RunsAsAsked(w: Wire, r: Request) {
    w.rate == r.rate && w.silent == r.silent && w.fd == r.fd && (r.fd ==> w.dbr == r.dbr)
  }

  /** The record of a channel, unless stale, is how the channel is really running, and its owner is
      an open port of this process with initialisation access to it. */
  lemma RecordsTellTheTruth(s: State, m: Mask)
    requires Reachable(s) && m in s.table && !s.table[m].stale
    ensures m in s.wire && Describes(s.table[m], s.wire[m])
    ensures s.table[m].owner in s.held && s.table[m].owner in s.ports && s.ports[s.table[m].owner] == Access(m, true)
  {
    ReachableKeeps(s);
  }

  /** Stale means ownerless, and an ownerless record is never one a port joins. */
  lemma StaleIffOwnerless(s: State, m: Mask, r: Request, a: Answers)
    requires Reachable(s) && m in s.table
    ensures s.table[m].stale <==> s.table[m].owner == INVALID_PORT
    ensures s.table[m].stale && LegalAnswers(s, a) && a.mask == m && !a.granted ==> Open(s, r, a).1.Refused?
  {
    ReachableKeeps(s);
  }

  /** Two open ports of one channel that joined the same configuration asked for the same one. */
  lemma SiblingsOfOneEpochAgree(s: State, p: Port, q: Port)
    requires Reachable(s) && p in s.held && q in s.held
    requires s.held[p].mask == s.held[q].mask && s.held[p].epoch == s.held[q].epoch
    ensures SameConfiguration(s.held[p].asked, s.held[q].asked) && s.held[p].gen == s.held[q].gen
  {
    ReachableKeeps(s);
  }

  /** With every driver call working, a port without initialisation access is admitted exactly
      onto a channel that is recorded, not stale, and running the way it asks. */
  lemma AdmittedIffRunningAsAsked(s: State, r: Request, a: Answers)
    requires Reachable(s) && LegalAnswers(s, a) && !a.granted
    requires a.mask != 0 && (r.fd ==> a.fdPresent) && a.openStatus == 0
    requires a.port != INVALID_PORT && a.activateStatus == 0
    ensures Open(s, r, a).1.Opened? <==>
              a.mask in s.table && !s.table[a.mask].stale && a.mask in s.wire && RunsAsAsked(s.wire[a.mask], r)
  {
    ReachableKeeps(s);
  }

  lemma FirstRunsAsAsked(s: State, r: Request, a: Answers)
    requires OpenFirst(s, r, a).1.Opened?
    ensures
      var s' := OpenFirst(s, r, a).0;
      a.mask in s'.wire && RunsAsAsked(s'.wire[a.mask], r) && (r.fd ==> s'.wire[a.mask].segments == r.segments)
  {}

  lemma JoinRunsAsAsked(s: State, r: Request, a: Answers)
    requires Truthful(s) && OpenJoin(s, r, a).1.Opened?
    ensures OpenJoin(s, r, a).0.wire == s.wire && a.mask in s.wire && RunsAsAsked(s.wire[a.mask], r)
    ensures a.mask in s.table && !s.table[a.mask].stale
  {}

  /** In any event, an admitted port finds the channel running as it asked; one that was granted
      initialisation access finds its own segments too. */
  lemma AdmittedRunsAsAsked(s: State, r: Request, a: Answers)
    requires Reachable(s) && LegalAnswers(s, a) && Open(s, r, a).1.Opened?
    ensures
      var s' := Open(s, r, a).0;
      && a.mask in s'.wire && RunsAsAsked(s'.wire[a.mask], r)
      && (a.granted && r.fd ==> s'.wire[a.mask].segments == r.segments)
      && (!a.granted ==> s'.wire == s.wire && a.mask in s.table && !s.table[a.mask].stale)
  {
    var s1 := s.(ports := s.ports[a.port := Access(a.mask, a.granted)]);
    OpenUnfolds(s, s1, r, a);
    if a.granted {
      FirstRunsAsAsked(s1, r, a);
    } else {
      assert Truthful(s1) by { ReachableKeeps(s); }
      JoinRunsAsAsked(s1, r, a);
    }
  }

  /** The bit-timing segments are no part of the record: an FD port admitted without access runs
      on its own segments if and only if they are the owner's. */
  lemma SegmentsAreTheOwners(s: State, r: Request, a: Answers)
    requires Reachable(s) && LegalAnswers(s, a) && !a.granted && r.fd && Open(s, r, a).1.Opened?
    ensures a.mask in s.wire && s.table[a.mask].owner in s.held
    ensures s.wire[a.mask].segments == r.segments <==> r.segments == s.held[s.table[a.mask].owner].asked.segments
  {
    ReachableKeeps(s);
    AdmittedRunsAsAsked(s, r, a);
  }

  /** A second port at other segments is admitted, and runs on the first port's. */
  lemma SegmentsAreNotPinned() returns (events: seq<Event>, r: Request, a: Answers)
    ensures LegalRun(Initial, events)
    ensures
      var s := Run(Initial, events);
      LegalAnswers(s, a) && Open(s, r, a).1.Opened? && r.fd && a.mask in s.wire && s.wire[a.mask].segments != r.segments
  {
    var seg := Segments(29, 10, 10, 7, 2, 2);
    var first := Request(500000, false, true, 2000000, seg);
    var w := Wire(0, false, false, 0, seg);
    var a1 := Answers(1, 0, true, 0, 7, true, 0, w, true, 0, w, 0, true);
    r := first.(segments := Segments(63, 16, 16, 15, 4, 4));
    a := a1.(port := 8, granted := false);
    events := [Opening(first, a1)];
    var s1 := Open(Initial, first, a1).0;
    assert Run(s1, []) == s1 && events[1..] == [];
    assert Run(Initial, events) == Run(Step(Initial, events[0]), events[1..]);
    assert s1.wire[1].segments == seg;
    assert s1.ports == map[7 := Access(1, true)];
  }

  /** `t` has the records of `s` with the same counts, marks and generations, and every record in
      force exactly as it was. */
  ghost predicate RecordsKept(s: map<Mask, Record>, t: map<Mask, Record>) {
    && t.Keys == s.Keys
    && forall k :: k in s ==>
         && t[k].ports == s[k].ports && t[k].gen == s[k].gen && t[k].stale == s[k].stale && t[k].owner == s[k].owner
         && (s[k].stale || t[k] == s[k])
  }

  lemma UndoLeavesRecords(s: State, m: Mask, p: Port, r: Request)
    requires Counted(s) && Owned(s) && (m in s.table ==> s.table[m].stale)
    ensures RecordsKept(s.table, AfterUndo(s, m, p, r).table)
  {
    UndoTable(s, m, p, r);
  }

  /** A refused configuring open either never touched the table or undid its record. */
  lemma OutputRefusedLeaves(s: State, r: Request, a: Answers)
    requires Counted(s) && Owned(s) && (a.mask in s.table ==> s.table[a.mask].stale) && Prepared(s, a.mask, r)
    requires SetOutput(s, r, a).1.Refused?
    ensures SetOutput(s, r, a).0.held == s.held && RecordsKept(s.table, SetOutput(s, r, a).0.table)
  {
    if a.outputPresent && a.outputStatus == 0 && !(a.mask !in s.table && |s.table| >= MAX_CHANNELS) {
      assert SetOutput(s, r, a) == Activate(AfterNote(s, a.mask, a.port, r), r, a);
      UndoLeavesRecords(s, a.mask, a.port, r);
    }
  }

  lemma FirstRefusedLeaves(s: State, r: Request, a: Answers)
    requires Inv(s) && OpenFirst(s, r, a).1.Refused? && (a.mask in s.table ==> s.table[a.mask].stale)
    ensures OpenFirst(s, r, a).0.held == s.held && RecordsKept(s.table, OpenFirst(s, r, a).0.table)
  {
    if a.configStatus == 0 {
      OutputRefusedLeaves(s.(wire := s.wire[a.mask := Configured(r, s.wire, a.mask)]), r, a);
    }
  }

  lemma JoinLeavesRecords(s: State, r: Request, a: Answers)
    requires Inv(s) && a.port !in s.held && a.port != INVALID_PORT && OpenJoin(s, r, a).1.Refused?
    ensures OpenJoin(s, r, a).0.held == s.held && OpenJoin(s, r, a).0.table == s.table
  {
    if JoinCode(s.table, a.mask, r) == 0 { JoinUndone(s, a.mask, a.port); }
  }

  /** A refused open leaves every count, mark and generation as it found them. */
  lemma RefusedLeavesRecords(s: State, r: Request, a: Answers)
    requires Reachable(s) && LegalAnswers(s, a) && Open(s, r, a).1.Refused?
    ensures Open(s, r, a).0.held == s.held && RecordsKept(s.table, Open(s, r, a).0.table)
  {
    ReachableKeeps(s);
    if a.mask == 0 || (r.fd && !a.fdPresent) || a.openStatus != 0 || a.port == INVALID_PORT {
      assert Open(s, r, a).0 == s;
    } else {
      var s1 := s.(ports := s.ports[a.port := Access(a.mask, a.granted)]);
      OpenUnfolds(s, s1, r, a);
      PortReady(s, s1, a);
      BranchLeavesRecords(s1, r, a, Open(s, r, a));
      assert s1.table == s.table && s1.held == s.held;
    }
  }

  lemma BranchLeavesRecords(s1: State, r: Request, a: Answers, out: (State, Outcome))
    requires Inv(s1) && a.port !in s1.held && a.port != INVALID_PORT
    requires a.granted ==> (a.mask in s1.table ==> s1.table[a.mask].stale)
    requires out == (if a.granted then OpenFirst(s1, r, a) else OpenJoin(s1, r, a)) && out.1.Refused?
    ensures out.0.held == s1.held && RecordsKept(s1.table, out.0.table)
  {
    if a.granted { FirstRefusedLeaves(s1, r, a); } else { JoinLeavesRecords(s1, r, a); }
  }

  /** What both ways of opening may assume of the port the driver just handed over. */
  lemma PortReady(s: State, s1: State, a: Answers)
    requires Inv(s) && LegalAnswers(s, a) && a.openStatus == 0 && a.port != INVALID_PORT
    requires s1 == s.(ports := s.ports[a.port := Access(a.mask, a.granted)])
    ensures Inv(s1) && a.port in s1.ports && a.port !in s1.held && s1.ports[a.port] == Access(a.mask, a.granted)
    ensures a.granted ==> (a.mask in s1.table ==> s1.table[a.mask].stale)
  {
    PortAdded(s, a.port, Access(a.mask, a.granted));
    if a.granted { UnheldIsStale(s, a.mask); }
  }

  lemma OpenUnfolds(s: State, s1: State, r: Request, a: Answers)
    requires a.mask != 0 && (r.fd ==> a.fdPresent) && a.openStatus == 0 && a.port != INVALID_PORT
    requires s1 == s.(ports := s.ports[a.port := Access(a.mask, a.granted)])
    ensures Open(s, r, a) == if a.granted then OpenFirst(s1, r, a) else OpenJoin(s1, r, a)
  {}

  // ---- what an open says, and what it leaves of its port ---------------------------------------

  /** Whether the driver handed a port over. */
  predicate GotPort(r: Request, a: Answers) {
    a.mask != 0 && (r.fd ==> a.fdPresent) && a.openStatus == 0 && a.port != INVALID_PORT
  }

  lemma BranchPorts(s1: State, r: Request, a: Answers, out: (State, Outcome))
    requires out == if a.granted then OpenFirst(s1, r, a) else OpenJoin(s1, r, a)
    ensures out.0.ports == if out.1.Opened? then s1.ports else ClosePort(s1.ports, a.port, a.closes)
  {
    if a.granted { FirstPorts(s1, r, a); } else { JoinPorts(s1, r, a); }
  }

  lemma ActivePorts(s: State, r: Request, a: Answers)
    requires a.mask in s.table
    ensures var (s', out) := Activate(s, r, a);
            s'.ports == if out.Opened? then s.ports else ClosePort(s.ports, a.port, a.closes)
  {
    hide Unreferenced;
  }

  lemma JoinPorts(s: State, r: Request, a: Answers)
    ensures var (s', out) := OpenJoin(s, r, a);
            s'.ports == if out.Opened? then s.ports else ClosePort(s.ports, a.port, a.closes)
  {
    if JoinCode(s.table, a.mask, r) == 0 { ActivePorts(s.(table := Referenced(s.table, a.mask)), r, a); }
    hide Activate;
  }

  lemma OutputPorts(s: State, r: Request, a: Answers)
    requires a.mask in s.wire
    ensures var (s', out) := SetOutput(s, r, a);
            s'.ports == if out.Opened? then s.ports else ClosePort(s.ports, a.port, a.closes)
  {
    if a.outputPresent && a.outputStatus == 0 && !(a.mask !in s.table && |s.table| >= MAX_CHANNELS) {
      var s1 := s.(wire := s.wire[a.mask := s.wire[a.mask].(silent := r.silent)]);
      ActivePorts(NotedState(s1, a.mask, r, a.port), r, a);
    }
    hide Activate, Noted, Referenced;
  }

  lemma FirstPorts(s: State, r: Request, a: Answers)
    ensures var (s', out) := OpenFirst(s, r, a);
            s'.ports == if out.Opened? then s.ports else ClosePort(s.ports, a.port, a.closes)
  {
    if a.configStatus == 0 { OutputPorts(s.(wire := s.wire[a.mask := Configured(r, s.wire, a.mask)]), r, a); }
    hide SetOutput, Configured;
  }

  /** A refused open closes the port it opened: nothing is left of it unless the driver would not close it,
      and then it alone. One that opens adds it, with the access the driver granted. */
  lemma OpenLeavesPort(s: State, r: Request, a: Answers)
    requires LegalAnswers(s, a)
    ensures var (s', out) := Open(s, r, a);
            && (out.Opened? ==> GotPort(r, a) && s'.ports == s.ports[a.port := Access(a.mask, a.granted)])
            && (out.Refused? ==>
                s'.ports ==
                  if GotPort(r, a) && !a.closes then s.ports[a.port := Access(a.mask, a.granted)] else s.ports)
  {
    if GotPort(r, a) {
      var s1 := s.(ports := s.ports[a.port := Access(a.mask, a.granted)]);
      OpenUnfolds(s, s1, r, a);
      BranchPorts(s1, r, a, Open(s, r, a));
      assert s1.ports - {a.port} == s.ports;
    }
  }

  /** Which is gone once the handle is closed, and no other with it. */
  lemma CloseLeavesPorts(s: State, p: Port, closes: bool)
    requires Reachable(s) && p in s.held
    ensures var s' := AfterClose(s, p, closes);
            && s'.ports == (if closes then s.ports - {p} else s.ports) && s'.held == s.held - {p} && s'.wire == s.wire
  {
    ReachableKeeps(s);
  }

  /** The channels of the open handles. */
  function Channels(held: map<Port, Handle>): set<Mask> { set p | p in held :: held[p].mask }

  /** What a port without initialisation access is told, from the open handles and the way the channel runs: 0
      admits it. */
  ghost function JoinSays(s: State, m: Mask, r: Request): int
    requires !Unowned(s.held, m) ==> m in s.wire
  {
    if m !in Channels(s.held) then -1003
    else if Unowned(s.held, m) then -1009
    else
      var w := s.wire[m];
      if w.silent != r.silent then -1004
      else if w.rate != r.rate then -1005
      else if w.fd != r.fd then -1011
      else if r.fd && w.dbr != r.dbr then -1012
      else 0
  }

  lemma JoinSaysCode(s: State, m: Mask, r: Request)
    requires Inv(s)
    ensures !Unowned(s.held, m) ==> m in s.wire
    ensures JoinCode(s.table, m, r) == JoinSays(s, m, r)
  {
    ChannelsAreRecorded(s);
    if m in s.table {
      NotEmpty(HeldOn(s.held, m));
      if !s.table[m].stale { assert s.held[s.table[m].owner].init; } else { StaleIsUnowned(s, m); }
    }
  }

  lemma ChannelsAreRecorded(s: State)
    requires Counted(s)
    ensures Channels(s.held) == s.table.Keys
  {
    forall m | m in s.table ensures m in Channels(s.held) {
      NotEmpty(HeldOn(s.held, m));
    }
  }

  /** The first of an open's conditions to fail, in the order they are looked at: what the loader and the driver
      answered, which channels have open handles, and how they run. 0 when none fails. */
  ghost function OpenSays(s: State, r: Request, a: Answers): int
    requires !Unowned(s.held, a.mask) ==> a.mask in s.wire
  {
    if a.mask == 0 then if a.why != 0 then a.why else -1000
    else if r.fd && !a.fdPresent then -1010
    else if a.openStatus != 0 then -a.openStatus
    else if a.port == INVALID_PORT then -1001
    else if a.granted && a.configStatus != 0 then -a.configStatus
    else if a.granted && !a.outputPresent then -1002
    else if a.granted && a.outputStatus != 0 then -a.outputStatus
    else if a.granted && a.mask !in Channels(s.held) && |Channels(s.held)| >= MAX_CHANNELS then -1006
    else if !a.granted && JoinSays(s, a.mask, r) != 0 then JoinSays(s, a.mask, r)
    else -a.activateStatus
  }

  lemma FirstCode(s: State, r: Request, a: Answers)
    ensures var out := OpenFirst(s, r, a).1;
            var code :=
              if a.configStatus != 0 then -a.configStatus
              else if !a.outputPresent then -1002
              else if a.outputStatus != 0 then -a.outputStatus
              else if a.mask !in s.table && |s.table| >= MAX_CHANNELS then -1006
              else -a.activateStatus;
            && (out.Refused? ==> out.code == code != 0)
            && (out.Opened? ==> code == 0 && out.port == a.port)
  {}

  lemma JoinOut(s: State, r: Request, a: Answers)
    ensures var out := OpenJoin(s, r, a).1;
            var code := if JoinCode(s.table, a.mask, r) != 0 then JoinCode(s.table, a.mask, r) else -a.activateStatus;
            && (out.Refused? ==> out.code == code != 0)
            && (out.Opened? ==> code == 0 && out.port == a.port)
  {}

  /** As said of it: opened with 0, and otherwise refused with the code. */
  predicate Says(out: Outcome, a: Answers, code: int) {
    match out
    case Refused(c) => c == code != 0
    case Opened(p, _) => code == 0 && p == a.port
  }

  lemma NoPortSays(s: State, r: Request, a: Answers)
    requires !GotPort(r, a) && (!Unowned(s.held, a.mask) ==> a.mask in s.wire)
    ensures Says(Open(s, r, a).1, a, OpenSays(s, r, a))
  {}

  lemma PortSays(s: State, s1: State, r: Request, a: Answers, out: Outcome)
    requires GotPort(r, a) && (!Unowned(s.held, a.mask) ==> a.mask in s.wire)
    requires s1 == s.(ports := s1.ports) && Channels(s.held) == s.table.Keys
    requires JoinCode(s.table, a.mask, r) == JoinSays(s, a.mask, r)
    requires out == if a.granted then OpenFirst(s1, r, a).1 else OpenJoin(s1, r, a).1
    ensures Says(out, a, OpenSays(s, r, a))
  {
    FirstCode(s1, r, a);
    JoinOut(s1, r, a);
    assert |Channels(s.held)| == |s.table|;
    hide OpenFirst, OpenJoin, JoinSays, JoinCode, Unowned, Channels;
  }

  /** An open succeeds exactly if none fails, and is refused with the first that does. */
  lemma OpensOrSays(s: State, r: Request, a: Answers)
    requires Reachable(s) && LegalAnswers(s, a)
    ensures !Unowned(s.held, a.mask) ==> a.mask in s.wire
    ensures Says(Open(s, r, a).1, a, OpenSays(s, r, a))
  {
    ReachableKeeps(s);
    JoinSaysCode(s, a.mask, r);
    ChannelsAreRecorded(s);
    hide Inv, Open, JoinSays, JoinCode, OpenSays, Reachable;
    if GotPort(r, a) {
      var s1 := s.(ports := s.ports[a.port := Access(a.mask, a.granted)]);
      OpenUnfolds(s, s1, r, a);
      PortSays(s, s1, r, a, Open(s, r, a).1);
    } else {
      NoPortSays(s, r, a);
    }
  }

  /** What an open hands out -- port, channel and generation -- is what releases it again. */
  lemma HandedOutReleases(s: State, r: Request, a: Answers, closes: bool)
    requires Reachable(s) && LegalAnswers(s, a) && Open(s, r, a).1.Opened?
    ensures var (s', out) := Open(s, r, a);
            && out.port in s'.held && s'.held == s.held[out.port := s'.held[out.port]]
            && s'.held[out.port].(epoch := 0) == Handle(a.mask, out.gen, 0, a.granted, r)
            && Close(s', out.port, a.mask, out.gen, closes) == AfterClose(s', out.port, closes)
  {
    var s1 := s.(ports := s.ports[a.port := Access(a.mask, a.granted)]);
    OpenUnfolds(s, s1, r, a);
  }

  // ---- handles and records -------------------------------------------------------------------

  lemma NotEmpty(ps: set<Port>)
    requires |ps| > 0
    ensures exists p :: p in ps
  {
    if forall p :: p !in ps {}
  }

  /** A record exists exactly while a handle is open on its channel, and every open handle finds
      it under the generation it joined: the generation test in a release never turns one away. */
  lemma RecordIffHeld(s: State, m: Mask)
    requires Reachable(s)
    ensures m in s.table <==> exists p :: p in s.held && s.held[p].mask == m
    ensures forall p :: p in s.held && s.held[p].mask == m ==> m in s.table && s.table[m].gen == s.held[p].gen
    ensures m in s.table ==> s.table[m].ports == |HeldOn(s.held, m)|
  {
    ReachableKeeps(s);
    if m in s.table {
      NotEmpty(HeldOn(s.held, m));
    }
  }

  /** Closing any port but the owner of a record in force leaves that record in force: it loses at
      most the closed port's own reference. */
  lemma OthersCloseKeepsRecord(s: State, p: Port, closes: bool, m: Mask)
    requires Reachable(s) && p in s.held && m in s.table && !s.table[m].stale && s.table[m].owner != p
    ensures
      var t := AfterClose(s, p, closes).table;
      m in t && t[m] == s.table[m].(ports := s.table[m].ports - if s.held[p].mask == m then 1 else 0)
  {
    ReachableKeeps(s);
    var o := s.table[m].owner;
    if s.held[p].mask == m {
      HeldOnRemoved(s.held, p, m);
      SomeHeld(s.held - {p}, o);
    }
  }

  /** The owner's close leaves a stale record while siblings are open, and none otherwise. */
  lemma OwnerCloses(s: State, p: Port, closes: bool, m: Mask)
    requires Reachable(s) && p in s.held && m in s.table && s.table[m].owner == p
    ensures
      var t := AfterClose(s, p, closes).table;
      && s.held[p].mask == m
      && (m in t <==> HeldOn(s.held, m) != {p})
      && (m in t ==> t[m].stale && t[m].owner == INVALID_PORT && t[m].ports == s.table[m].ports - 1)
  {
    ReachableKeeps(s);
    HeldOnRemoved(s.held, p, m);
    SomeHeld(s.held, p);
    if |HeldOn(s.held, m)| == 1 { OneHeld(HeldOn(s.held, m), p); }
  }

  lemma OneHeld(ps: set<Port>, p: Port)
    requires p in ps && |ps| == 1
    ensures ps == {p}
  {
    assert |ps - {p}| == 0;
  }

  /** Once closed, a handle number owns nothing, so the driver may hand it out again at once. */
  lemma ClosedOwnsNothing(s: State, p: Port, closes: bool, m: Mask)
    requires Reachable(s) && p in s.held && m in AfterClose(s, p, closes).table
    ensures AfterClose(s, p, closes).table[m].owner != p
  {
    ReachableKeeps(s);
    CloseKeeps(s, p, closes);
  }

  // ---- the table never fills -----------------------------------------------------------------

  ghost predicate OneChannel(m: Mask) {
    exists b :: 0 <= b < MAX_CHANNELS && m == Pow2(b)
  }

  ghost predicate OneChannelEach(events: seq<Event>) {
    forall e :: e in events && e.Opening? ==> e.answers.mask == 0 || OneChannel(e.answers.mask)
  }

  function Bits(n: nat): (ms: set<Mask>)
    ensures |ms| <= n
    ensures forall b :: 0 <= b < n ==> Pow2(b) in ms
  {
    if n == 0 then {} else Bits(n - 1) + {Pow2(n - 1)}
  }

  lemma ActivateKeys(s: State, r: Request, a: Answers)
    requires a.mask in s.table
    ensures Activate(s, r, a).0.table.Keys <= s.table.Keys
  {}

  lemma RecordKeys(s: State, r: Request, a: Answers)
    ensures RecordOpen(s, r, a).0.table.Keys <= s.table.Keys + {a.mask}
  {
    var s' := NotedState(s, a.mask, r, a.port);
    assert s'.table.Keys == s.table.Keys + {a.mask};
    ActivateKeys(s', r, a);
  }

  lemma FirstTableKeys(s: State, r: Request, a: Answers)
    ensures OpenFirst(s, r, a).0.table.Keys <= s.table.Keys + {a.mask}
  {
    if a.configStatus == 0 && a.outputPresent && a.outputStatus == 0 {
      var s1 := s.(wire := s.wire[a.mask := Configured(r, s.wire, a.mask)]);
      RecordKeys(s1.(wire := s1.wire[a.mask := s1.wire[a.mask].(silent := r.silent)]), r, a);
    }
  }

  lemma OpenTableKeys(s: State, r: Request, a: Answers)
    ensures a.mask != 0 ==> Open(s, r, a).0.table.Keys <= s.table.Keys + {a.mask}
    ensures a.mask == 0 ==> Open(s, r, a).0.table == s.table
  {
    if a.mask != 0 && (r.fd ==> a.fdPresent) && a.openStatus == 0 && a.port != INVALID_PORT {
      var s1 := s.(ports := s.ports[a.port := Access(a.mask, a.granted)]);
      OpenUnfolds(s, s1, r, a);
      FirstTableKeys(s1, r, a);
      assert OpenJoin(s1, r, a).0.table.Keys <= s1.table.Keys;
    }
  }

  lemma StepOneChannel(s: State, e: Event)
    requires forall m :: m in s.table ==> OneChannel(m)
    requires e.Opening? ==> e.answers.mask == 0 || OneChannel(e.answers.mask)
    ensures forall m :: m in Step(s, e).table ==> OneChannel(m)
  {
    if e.Opening? { OpenTableKeys(s, e.request, e.answers); }
  }

  lemma {:induction false} RunOneChannel(s: State, events: seq<Event>)
    requires OneChannelEach(events) && forall m :: m in s.table ==> OneChannel(m)
    ensures forall m :: m in Run(s, events).table ==> OneChannel(m)
    decreases |events|
  {
    if events != [] {
      assert events[0] in events;
      StepOneChannel(s, events[0]);
      RunOneChannel(Step(s, events[0]), events[1..]);
    }
  }

  /** With one bit per channel there is always a slot for a channel without a record. */
  lemma NeverFull(events: seq<Event>, m: Mask)
    requires OneChannelEach(events) && OneChannel(m) && m !in Run(Initial, events).table
    ensures |Run(Initial, events).table| < MAX_CHANNELS
  {
    RunOneChannel(Initial, events);
    OneChannels(Run(Initial, events).table.Keys + {m});
  }

  lemma OneChannels(ms: set<Mask>)
    requires forall m :: m in ms ==> OneChannel(m)
    ensures |ms| <= MAX_CHANNELS
  {
    forall m | m in ms ensures m in Bits(MAX_CHANNELS) {
      assert OneChannel(m);
      var b :| 0 <= b < MAX_CHANNELS && m == Pow2(b);
    }
    SubsetSize(ms, Bits(MAX_CHANNELS));
  }

  lemma SubsetSize(a: set<Mask>, b: set<Mask>)
    requires a <= b
    ensures |a| <= |b|
  {
    assert |b| == |a| + |b - a| by { assert b == a + (b - a); }
  }
}
