/**
 What the Vector backend remembers about the channels it configured, as a state machine.

 XL does not report how a channel is configured, so a port that is denied initialisation
 access is admitted on the strength of a record alone. This module holds the simple form of
 that bookkeeping -- a finite map from channel masks to records -- next to the driver it
 describes, and says what every run of opens, failed opens, closes and foreign reconfigurations
 is to keep. VectorSafety proves that; VectorTable runs the same calls on the parallel arrays.
 */
module VectorPins {

  type Port = int
  type Mask = nat

  const INVALID_PORT: Port := -1
  const MAX_CHANNELS := 64

  /** Bit-timing segments of both phases: handed to the driver, remembered by nobody. */
  datatype Segments = Segments(aTseg1: nat, aTseg2: nat, aSjw: nat, dTseg1: nat, dTseg2: nat, dSjw: nat)

  /** What a caller asks of a channel. */
  datatype Request = Request(rate: nat, silent: bool, fd: bool, dbr: nat, segments: Segments)

  /** How a channel is really running. `dbr` and `segments` mean something only when `fd`. */
  datatype Wire = Wire(rate: nat, silent: bool, fd: bool, dbr: nat, segments: Segments)

  datatype Record = Record(rate: nat, silent: bool, fd: bool, dbr: nat, ports: int, owner: Port, stale: bool, gen: nat)

  /** A port the driver holds open for this process, and whether it has initialisation access. */
  datatype Access = Access(mask: Mask, init: bool)

  /** A port handed to a caller and not closed yet: `epoch` names the configuration it joined. */
  datatype Handle = Handle(mask: Mask, gen: nat, epoch: nat, init: bool, asked: Request)

  datatype State = State(
    table: map<Mask, Record>, genSeq: nat,
    ports: map<Port, Access>, wire: map<Mask, Wire>,
    held: map<Port, Handle>, epoch: map<Mask, nat>, epochs: nat)

  /** The environment's side of one open: every driver call's answer. `mangled` is what a refused
      configuration call left on the channel; `closes` says whether xlClosePort worked. */
  datatype Answers = Answers(
    mask: Mask, why: int, fdPresent: bool,
    openStatus: int, port: Port, granted: bool,
    configStatus: int, mangled: Wire,
    outputPresent: bool, outputStatus: int, outputMangled: Wire,
    activateStatus: int, closes: bool)

  datatype Outcome = Opened(port: Port, gen: nat) | Refused(code: int)

  // ---- the driver ----------------------------------------------------------------------------

  ghost predicate InitHeld(ports: map<Port, Access>, m: Mask) {
    exists p :: p in ports && ports[p] == Access(m, true)
  }

  /** Handles are unique among open ports, and initialisation access has one holder. */
  ghost predicate LegalAnswers(s: State, a: Answers) {
    a.openStatus == 0 && a.port != INVALID_PORT ==>
      a.port !in s.ports && (a.granted ==> !InitHeld(s.ports, a.mask))
  }

  function ClosePort(ports: map<Port, Access>, p: Port, closes: bool): map<Port, Access> {
    if closes then ports - {p} else ports
  }

  /** xlCanFdSetConfiguration sets both phases; xlCanSetChannelBitrate makes the channel classic. */
  function Configured(r: Request, before: map<Mask, Wire>, m: Mask): Wire {
    var silent := m in before && before[m].silent;
    if r.fd then Wire(r.rate, silent, true, r.dbr, r.segments)
    else Wire(r.rate, silent, false, 0, Segments(0, 0, 0, 0, 0, 0))
  }

  // ---- the record table as a map -------------------------------------------------------------

  /** The record after the channel was configured: whatever it said, it is fresh again. */
  function Restated(c: Record, r: Request, owner: Port): Record {
    c.(rate := r.rate, silent := r.silent, fd := r.fd, dbr := r.dbr, owner := owner, stale := false)
  }

  function Recounted(c: Record, delta: int): Record {
    c.(ports := c.ports + delta)
  }

  /** The owner is gone and its siblings are not: nothing new is admitted on this record. */
  function Disowned(c: Record): Record {
    c.(stale := true, owner := INVALID_PORT)
  }

  function Noted(t: map<Mask, Record>, genSeq: nat, m: Mask, r: Request, owner: Port): (map<Mask, Record>, nat) {
    if m in t then
      (t[m := Restated(t[m], r, owner)], genSeq)
    else
      (t[m := Record(r.rate, r.silent, r.fd, r.dbr, 0, owner, false, genSeq + 1)], genSeq + 1)
  }

  function Referenced(t: map<Mask, Record>, m: Mask): map<Mask, Record> {
    if m in t then t[m := Recounted(t[m], 1)] else t
  }

  function Unreferenced(t: map<Mask, Record>, m: Mask, p: Port, gen: nat): map<Mask, Record> {
    if m !in t || t[m].gen != gen then t
    else
      var c := Recounted(t[m], -1);
      if c.ports <= 0 then t - {m}
      else t[m := if c.owner == p then Disowned(c) else c]
  }

  /** What a port without initialisation access is told: 0 admits it. */
  function JoinCode(t: map<Mask, Record>, m: Mask, r: Request): int {
    if m !in t then -1003
    else if t[m].stale then -1009
    else if r.silent != t[m].silent then -1004
    else if t[m].rate != r.rate then -1005
    else if r.fd != t[m].fd then -1011
    else if r.fd && t[m].dbr != r.dbr then -1012
    else 0
  }

  // ---- one open ------------------------------------------------------------------------------

  function Failed(s: State, a: Answers, code: int): (State, Outcome) {
    (s.(ports := ClosePort(s.ports, a.port, a.closes)), Refused(code))
  }

  /** The channel is ours to configure: rate (and data phase), then output mode, then the record. */
  function OpenFirst(s: State, r: Request, a: Answers): (State, Outcome) {
    if a.configStatus != 0 then
      Failed(s.(wire := s.wire[a.mask := a.mangled]), a, -a.configStatus)
    else
      SetOutput(s.(wire := s.wire[a.mask := Configured(r, s.wire, a.mask)]), r, a)
  }

  function SetOutput(s: State, r: Request, a: Answers): (State, Outcome)
    requires a.mask in s.wire
  {
    if !a.outputPresent then Failed(s, a, -1002)
    else if a.outputStatus != 0 then Failed(s.(wire := s.wire[a.mask := a.outputMangled]), a, -a.outputStatus)
    else RecordOpen(s.(wire := s.wire[a.mask := s.wire[a.mask].(silent := r.silent)]), r, a)
  }

  /** The state once `m` is recorded as configured by `p` and its reference is taken. */
  function NotedState(s: State, m: Mask, r: Request, p: Port): State {
    var (t, g) := Noted(s.table, s.genSeq, m, r, p);
    s.(table := Referenced(t, m), genSeq := g, epoch := s.epoch[m := s.epochs + 1], epochs := s.epochs + 1)
  }

  function RecordOpen(s: State, r: Request, a: Answers): (State, Outcome) {
    if a.mask !in s.table && |s.table| >= MAX_CHANNELS then Failed(s, a, -1006)
    else Activate(NotedState(s, a.mask, r, a.port), r, a)
  }

  /** Somebody else holds the access: admitted only onto a channel recorded as asked. */
  function OpenJoin(s: State, r: Request, a: Answers): (State, Outcome) {
    var code := JoinCode(s.table, a.mask, r);
    if code != 0 then Failed(s, a, code)
    else Activate(s.(table := Referenced(s.table, a.mask)), r, a)
  }

  function Activate(s: State, r: Request, a: Answers): (State, Outcome)
    requires a.mask in s.table
  {
    var gen := s.table[a.mask].gen;
    if a.activateStatus != 0 then
      Failed(s.(table := Unreferenced(s.table, a.mask, a.port, gen)), a, -a.activateStatus)
    else
      var e := if a.mask in s.epoch then s.epoch[a.mask] else 0;
      (s.(held := s.held[a.port := Handle(a.mask, gen, e, a.granted, r)]), Opened(a.port, gen))
  }

  function Open(s: State, r: Request, a: Answers): (State, Outcome) {
    if a.mask == 0 then (s, Refused(if a.why != 0 then a.why else -1000))
    else if r.fd && !a.fdPresent then (s, Refused(-1010))
    else if a.openStatus != 0 || a.port == INVALID_PORT then
      (s, Refused(if a.openStatus != 0 then -a.openStatus else -1001))
    else
      var s1 := s.(ports := s.ports[a.port := Access(a.mask, a.granted)]);
      if a.granted then OpenFirst(s1, r, a) else OpenJoin(s1, r, a)
  }

  // ---- one close -----------------------------------------------------------------------------

  /** The record is released while the handle is still ours, then the port is closed. */
  function Close(s: State, p: Port, m: Mask, gen: nat, closes: bool): State {
    if p == INVALID_PORT then s
    else s.(table := Unreferenced(s.table, m, p, gen), ports := ClosePort(s.ports, p, closes), held := s.held - {p})
  }

  // ---- runs ----------------------------------------------------------------------------------

  datatype Event =
    | Opening(request: Request, answers: Answers)
    | Closing(port: Port, closes: bool)
    | Foreign(mask: Mask, wire: Wire)

  /** A caller closes a handle it was given, once; another application reconfigures a channel only
      while none of our ports holds its initialisation access. */
  ghost predicate Legal(s: State, e: Event) {
    match e
    case Opening(_, a) => LegalAnswers(s, a)
    case Closing(p, _) => p in s.held
    case Foreign(m, _) => !InitHeld(s.ports, m)
  }

  function Step(s: State, e: Event): State {
    match e
    case Opening(r, a) => Open(s, r, a).0
    case Closing(p, closes) => if p in s.held then Close(s, p, s.held[p].mask, s.held[p].gen, closes) else s
    case Foreign(m, w) => s.(wire := s.wire[m := w])
  }

  function Run(s: State, events: seq<Event>): State
    decreases |events|
  {
    if events == [] then s else Run(Step(s, events[0]), events[1..])
  }

  ghost predicate LegalRun(s: State, events: seq<Event>)
    decreases |events|
  {
    events == [] || (Legal(s, events[0]) && LegalRun(Step(s, events[0]), events[1..]))
  }

  ghost predicate Reachable(s: State) {
    exists events :: LegalRun(Initial, events) && Run(Initial, events) == s
  }

  const Initial := State(map[], 0, map[], map[], map[], map[], 0)

  // ---- what every state keeps ----------------------------------------------------------------

  function HeldOn(held: map<Port, Handle>, m: Mask): set<Port> {
    set p | p in held && held[p].mask == m
  }

  predicate Agrees(rec: Record, r: Request) {
    r.rate == rec.rate && r.silent == rec.silent && r.fd == rec.fd && (r.fd ==> r.dbr == rec.dbr)
  }

  /** The record says how the channel runs, in everything a record can say. */
  predicate Describes(rec: Record, w: Wire) {
    w.rate == rec.rate && w.silent == rec.silent && w.fd == rec.fd && (w.fd ==> w.dbr == rec.dbr)
  }

  predicate SameConfiguration(a: Request, b: Request) {
    a.rate == b.rate && a.silent == b.silent && a.fd == b.fd && (a.fd ==> a.dbr == b.dbr)
  }

  ghost predicate Counted(s: State) {
    && (forall m :: m in s.table ==> s.table[m].ports == |HeldOn(s.held, m)| > 0 && s.table[m].gen <= s.genSeq)
    && (forall p :: p in s.held ==> s.held[p].mask in s.table && s.table[s.held[p].mask].gen == s.held[p].gen)
    && (forall m1, m2 :: m1 in s.table && m2 in s.table && m1 != m2 ==> s.table[m1].gen != s.table[m2].gen)
  }

  ghost predicate DriverKnows(s: State) {
    && INVALID_PORT !in s.ports
    && (forall p :: p in s.held ==> p in s.ports && s.ports[p] == Access(s.held[p].mask, s.held[p].init))
    && (forall p, q | p in s.ports && q in s.ports ::
          s.ports[p].init && s.ports[q].init && s.ports[p].mask == s.ports[q].mask ==> p == q)
  }

  ghost predicate Owned(s: State) {
    && (forall m :: m in s.table ==>
          && (s.table[m].stale <==> s.table[m].owner == INVALID_PORT)
          && (!s.table[m].stale ==> s.table[m].owner in s.held && s.held[s.table[m].owner].mask == m
                                    && s.held[s.table[m].owner].init))
    && forall p :: p in s.held && s.held[p].init && s.held[p].mask in s.table ==> s.table[s.held[p].mask].owner == p
  }

  /** A record that is not stale is what the channel runs; the segments are the owner's. */
  ghost predicate Truthful(s: State) {
    forall m :: m in s.table && !s.table[m].stale ==>
      && m in s.wire && Describes(s.table[m], s.wire[m])
      && s.table[m].owner in s.held
      && (s.wire[m].fd ==> s.wire[m].segments == s.held[s.table[m].owner].asked.segments)
  }

  /** Handles of one channel and one epoch asked for one configuration. */
  ghost predicate SiblingsAgree(held: map<Port, Handle>) {
    forall p, q | p in held && q in held ::
      held[p].mask == held[q].mask && held[p].epoch == held[q].epoch ==> SameConfiguration(held[p].asked, held[q].asked)
  }

  ghost predicate EpochsBounded(s: State) {
    && (forall m :: m in s.table ==> m in s.epoch)
    && (forall m :: m in s.epoch ==> s.epoch[m] <= s.epochs)
    && (forall p :: p in s.held ==> s.held[p].mask in s.epoch && s.held[p].epoch <= s.epoch[s.held[p].mask])
  }

  /** The current epoch's handles asked for what the record says. */
  ghost predicate CurrentAgree(s: State) {
    forall p | p in s.held && s.held[p].mask in s.table && s.held[p].mask in s.epoch ::
      s.held[p].epoch == s.epoch[s.held[p].mask] ==> Agrees(s.table[s.held[p].mask], s.held[p].asked)
  }

  ghost predicate EpochsAgree(s: State) {
    SiblingsAgree(s.held) && EpochsBounded(s) && CurrentAgree(s)
  }

  ghost predicate Inv(s: State) {
    Counted(s) && DriverKnows(s) && Owned(s) && Truthful(s) && EpochsAgree(s)
  }
}
