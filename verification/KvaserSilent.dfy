/**
 Switching a Kvaser channel to listen-only, through a driver that obeys one handle without saying
 which: the one with initialisation access, and only while every handle of the channel is off the
 bus. Asked otherwise it answers success and does nothing.
 */
module KvaserSilent {

  datatype Mode = Normal | Silent

  datatype Kind = Off | SetMode | On

  datatype Call = Call(kind: Kind, handle: int, code: int)

  /** What the driver answers next; `took`: whether a bus call it reports as failed took effect. */
  datatype Answer = Answer(code: int, took: bool)

  const MISSING := -100

  function Wanted(silent: bool): Mode { if silent then Silent else Normal }

  function SetOf(handles: seq<int>): set<int> { set h | h in handles }

  /** The first error among the codes, 0 when there is none. */
  function FirstError(codes: seq<int>): (e: int)
    ensures e <= 0
  {
    if codes == [] then 0
    else
      var last := codes[|codes| - 1];
      var e := FirstError(codes[..|codes| - 1]);
      if e < 0 then e else if last < 0 then last else 0
  }

  lemma {:induction false} FirstErrorIsFirst(codes: seq<int>)
    ensures var e := FirstError(codes);
            && (e >= 0 <==> forall i :: 0 <= i < |codes| ==> codes[i] >= 0) && e <= 0
            && (e < 0 ==> exists i :: 0 <= i < |codes| && codes[i] == e && forall k :: 0 <= k < i ==> codes[k] >= 0)
  {
    if codes != [] {
      var init := codes[..|codes| - 1];
      FirstErrorIsFirst(init);
      var e := FirstError(init);
      if e < 0 {
        var i :| 0 <= i < |init| && init[i] == e && forall k :: 0 <= k < i ==> init[k] >= 0;
        assert codes[i] == e;
      } else {
        forall i | 0 <= i < |init| ensures codes[i] >= 0 { assert init[i] >= 0; }
      }
    }
  }

  lemma ErrorAnd(codes: seq<int>, code: int)
    ensures FirstError(codes + [code]) ==
              if FirstError(codes) < 0 then FirstError(codes) else if code < 0 then code else 0
  {
    assert (codes + [code])[..|codes|] == codes;
  }

  /** The calls of one kind, handle by handle. */
  function Asked(kind: Kind, handles: seq<int>, codes: seq<int>): (r: seq<Call>)
    requires |codes| <= |handles|
    ensures |r| == |codes|
  {
    seq(|codes|, i requires 0 <= i < |codes| => Call(kind, handles[i], codes[i]))
  }

  lemma AskedAnd(kind: Kind, handles: seq<int>, codes: seq<int>, code: int)
    requires |codes| < |handles|
    ensures Asked(kind, handles, codes + [code]) == Asked(kind, handles, codes) + [Call(kind, handles[|codes|], code)]
  {}

  /** Whether the handle with initialisation access was asked, and did not refuse. */
  ghost predicate Obeyed(access: int, handles: seq<int>, codes: seq<int>) {
    exists i :: 0 <= i < |codes| <= |handles| && handles[i] == access && codes[i] >= 0
  }

  lemma ObeyedAnd(access: int, handles: seq<int>, codes: seq<int>, code: int)
    requires |codes| < |handles|
    ensures Obeyed(access, handles, codes + [code]) <==>
              Obeyed(access, handles, codes) || (handles[|codes|] == access && code >= 0)
  {
    if i :| 0 <= i < |codes| && handles[i] == access && codes[i] >= 0 {
      assert (codes + [code])[i] == codes[i];
    }
    if handles[|codes|] == access && code >= 0 { assert (codes + [code])[|codes|] == code; }
  }

  lemma NothingAsked(kind: Kind, handles: seq<int>)
    ensures Asked(kind, handles, []) == [] && FirstError([]) == 0 && SetOf(handles[..0]) == {}
    ensures forall access :: !Obeyed(access, handles, [])
  {}

  lemma OneMore(handles: seq<int>, i: nat)
    requires i < |handles|
    ensures SetOf(handles[..i + 1]) == SetOf(handles[..i]) + {handles[i]}
  {
    assert handles[..i + 1] == handles[..i] + [handles[i]];
  }

  /** What a switch leaves, given the driver's answers: a handle that will not go off the bus leaves
      the mode as it was, and every handle is put back on whichever way it went. */
  ghost predicate Switched(onBus: set<int>, mode: Mode, onBus': set<int>, mode': Mode, access: int, handles: seq<int>,
                           wanted: Mode, rc: int, offs: seq<int>, sets: seq<int>, ons: seq<int>)
  {
    && |ons| == |handles|
    && (FirstError(offs) < 0 ==> sets == [] && mode' == mode && rc == FirstError(offs))
    && (FirstError(offs) == 0 ==>
        && |offs| == |sets| == |handles|
        && rc == (if FirstError(sets) < 0 then FirstError(sets) else FirstError(ons))
        && mode' == (if Obeyed(access, handles, sets) && onBus <= SetOf(handles) then wanted else mode))
    && (rc == 0 ==> onBus' == onBus + SetOf(handles))
  }

  /** A zero means the mode is in force, exactly when the handle the driver obeys was among those
      asked and none but those was on the bus; and all of them are back on. */
  lemma ZeroMeansInForce(onBus: set<int>, mode: Mode, onBus': set<int>, mode': Mode, access: int, handles: seq<int>,
                         wanted: Mode, rc: int, offs: seq<int>, sets: seq<int>, ons: seq<int>)
    requires Switched(onBus, mode, onBus', mode', access, handles, wanted, rc, offs, sets, ons) && rc == 0
    ensures mode' == wanted <==> mode == wanted || (access in handles && onBus <= SetOf(handles))
    ensures forall h :: h in handles ==> h in onBus'
  {
    FirstErrorIsFirst(offs);
    FirstErrorIsFirst(sets);
    if access in handles {
      var i :| 0 <= i < |handles| && handles[i] == access;
      assert sets[i] >= 0;
    }
  }

  /** And the other way about: a mode that changed was asked of the handle the driver obeys, which
      did not refuse. */
  lemma ChangedOnlyIfObeyed(onBus: set<int>, mode: Mode, onBus': set<int>, mode': Mode, access: int, handles: seq<int>,
                            wanted: Mode, rc: int, offs: seq<int>, sets: seq<int>, ons: seq<int>)
    requires Switched(onBus, mode, onBus', mode', access, handles, wanted, rc, offs, sets, ons) && mode' != mode
    ensures mode' == wanted && access in handles && onBus <= SetOf(handles) && FirstError(offs) == 0
  {
    FirstErrorIsFirst(offs);
  }

  /** A refusal by the handle the driver obeys is not masked by the others' empty successes. */
  lemma RefusalIsReported(onBus: set<int>, mode: Mode, onBus': set<int>, mode': Mode, access: int, handles: seq<int>,
                          wanted: Mode, rc: int, offs: seq<int>, sets: seq<int>, ons: seq<int>)
    requires Switched(onBus, mode, onBus', mode', access, handles, wanted, rc, offs, sets, ons)
    requires |sets| == |handles| && forall i :: 0 <= i < |handles| && handles[i] == access ==> sets[i] < 0
    requires access in handles
    ensures rc < 0 && mode' == mode
  {
    FirstErrorIsFirst(offs);
    FirstErrorIsFirst(sets);
    var i :| 0 <= i < |handles| && handles[i] == access;
    assert sets[i] < 0;
  }

  /** The channel as the driver has it, and what it was asked. */
  class Channel {
    const canSetMode: bool   // whether the library has the call that sets a channel's mode
    const canBus: bool       // and those that take handles on and off the bus
    var open: set<int>
    var onBus: set<int>
    var access: int          // the handle with initialisation access, -1 for none
    var mode: Mode
    var answers: seq<Answer>
    var calls: seq<Call>

    /** What the driver keeps of its handles. */
    ghost predicate Valid()
      reads this
    {
      onBus <= open && (access in open || access == -1) && forall h :: h in open ==> h >= 0
    }

    constructor (modes: bool, buses: bool, script: seq<Answer>)
      ensures Valid() && canSetMode == modes && canBus == buses && answers == script
      ensures open == {} && onBus == {} && access == -1 && mode == Normal && calls == []
    {
      canSetMode, canBus, answers := modes, buses, script;
      open, onBus, access, mode, calls := {}, {}, -1, Normal, [];
    }

    method Next() returns (a: Answer)
      modifies this`answers
      ensures old(answers) == [] ==> answers == [] && a.code == 0
      ensures old(answers) != [] ==> answers == old(answers)[1..] && a == old(answers)[0]
    {
      if answers == [] { return Answer(0, false); }
      a := answers[0];
      answers := answers[1..];
    }

    method BusOff(h: int) returns (code: int)
      modifies this`answers, this`calls, this`onBus
      ensures old(answers) == [] ==> answers == [] && code == 0
      ensures calls == old(calls) + [Call(Off, h, code)]
      ensures onBus == old(onBus) - {h} || (code < 0 && onBus == old(onBus))
    {
      var a := Next();
      calls, code := calls + [Call(Off, h, a.code)], a.code;
      if code >= 0 || a.took { onBus := onBus - {h}; }
    }

    method BusOn(h: int) returns (code: int)
      modifies this`answers, this`calls, this`onBus
      ensures old(answers) == [] ==> answers == [] && code == 0
      ensures calls == old(calls) + [Call(On, h, code)]
      ensures onBus == old(onBus) + {h} || (code < 0 && onBus == old(onBus))
    {
      var a := Next();
      calls, code := calls + [Call(On, h, a.code)], a.code;
      if code >= 0 || a.took { onBus := onBus + {h}; }
    }

    method SetOutput(h: int, wanted: Mode) returns (code: int)
      modifies this`answers, this`calls, this`mode
      ensures old(answers) == [] ==> answers == [] && code == 0
      ensures calls == old(calls) + [Call(SetMode, h, code)]
      ensures mode == if code >= 0 && h == access && onBus == {} then wanted else old(mode)
    {
      var a := Next();
      calls, code := calls + [Call(SetMode, h, a.code)], a.code;
      if code >= 0 && h == access && onBus == {} { mode := wanted; }
    }

    // -- the switch

    /** Every handle off the bus, as far as the first that will not go. */
    method AllOff(handles: seq<int>) returns (off: int, ghost codes: seq<int>)
      modifies this`answers, this`calls, this`onBus
      ensures old(answers) == [] ==> answers == [] && off == 0
      ensures |codes| <= |handles| && calls == old(calls) + Asked(Off, handles, codes)
      ensures off < 0 ==> off == FirstError(codes)
      ensures off >= 0 ==> FirstError(codes) == 0 && |codes| == |handles| && onBus == old(onBus) - SetOf(handles)
    {
      hide Asked, SetOf, FirstError;
      codes, off := [], 0;
      NothingAsked(Off, handles);
      var i := 0;
      while i < |handles|
        invariant 0 <= i == |codes| <= |handles| && FirstError(codes) == 0 && off >= 0
        invariant calls == old(calls) + Asked(Off, handles, codes) && onBus == old(onBus) - SetOf(handles[..i])
        invariant old(answers) == [] ==> answers == [] && off == 0
      {
        off := BusOff(handles[i]);
        AskedAnd(Off, handles, codes, off);
        ErrorAnd(codes, off);
        codes := codes + [off];
        if off < 0 { return; }
        OneMore(handles, i);
        i := i + 1;
      }
      assert handles[..i] == handles;
    }

    /** The mode asked for through every handle: the driver will not say which one it obeys. */
    method AskAll(handles: seq<int>, wanted: Mode) returns (st: int, ghost codes: seq<int>)
      modifies this`answers, this`calls, this`mode
      ensures old(answers) == [] ==> answers == [] && st == 0
      ensures |codes| == |handles| && calls == old(calls) + Asked(SetMode, handles, codes)
      ensures st == FirstError(codes)
      ensures mode == if Obeyed(access, handles, codes) && onBus == {} then wanted else old(mode)
    {
      hide Asked, FirstError, Obeyed;
      codes, st := [], 0;
      NothingAsked(SetMode, handles);
      for i := 0 to |handles|
        invariant i == |codes| && st == FirstError(codes) && calls == old(calls) + Asked(SetMode, handles, codes)
        invariant old(answers) == [] ==> answers == [] && st == 0
        invariant mode == if Obeyed(access, handles, codes) && onBus == {} then wanted else old(mode)
      {
        var one := SetOutput(handles[i], wanted);
        if one < 0 && st >= 0 { st := one; }
        AskedAnd(SetMode, handles, codes, one);
        ErrorAnd(codes, one);
        ObeyedAnd(access, handles, codes, one);
        codes := codes + [one];
      }
    }

    /** Every handle back on the bus, none left out for another's failure; the first error of all. */
    method AllOn(handles: seq<int>, before: int) returns (st: int, ghost codes: seq<int>)
      modifies this`answers, this`calls, this`onBus
      ensures old(answers) == [] ==> answers == [] && st == before
      ensures |codes| == |handles| && calls == old(calls) + Asked(On, handles, codes)
      ensures FirstError(codes) == 0 ==> onBus == old(onBus) + SetOf(handles)
      ensures st == if before < 0 then before else if FirstError(codes) < 0 then FirstError(codes) else before
    {
      hide Asked, SetOf, FirstError;
      codes, st := [], before;
      NothingAsked(On, handles);
      for i := 0 to |handles|
        invariant i == |codes| && calls == old(calls) + Asked(On, handles, codes)
        invariant old(answers) == [] ==> answers == [] && st == before
        invariant FirstError(codes) == 0 ==> onBus == old(onBus) + SetOf(handles[..i])
        invariant st == if before < 0 then before else if FirstError(codes) < 0 then FirstError(codes) else before
      {
        var on := BusOn(handles[i]);
        if st >= 0 && on < 0 { st := on; }
        AskedAnd(On, handles, codes, on);
        ErrorAnd(codes, on);
        codes := codes + [on];
        OneMore(handles, i);
      }
      assert handles[..|handles|] == handles;
    }

    /** The whole switch. What it asked, in what order, and what came of it, exactly: `offs`, `sets`
        and `ons` are the driver's answers. */
    method SetSilentAll(handles: seq<int>, silent: bool) returns (rc: int, ghost offs: seq<int>,
                                                                  ghost sets: seq<int>, ghost ons: seq<int>)
      modifies this`answers, this`calls, this`onBus, this`mode
      ensures |offs| <= |handles| && |sets| <= |handles| && |ons| <= |handles|
      ensures calls == old(calls) + Asked(Off, handles, offs) + Asked(SetMode, handles, sets) + Asked(On, handles, ons)
      ensures !canSetMode || !canBus || handles == [] ==>
                rc == MISSING && calls == old(calls) && mode == old(mode) && onBus == old(onBus)
      ensures canSetMode && canBus && handles != [] ==>
                Switched(old(onBus), old(mode), onBus, mode, access, handles, Wanted(silent), rc, offs, sets, ons)
      ensures canSetMode && canBus && handles != [] && old(answers) == [] ==> rc == 0
      ensures rc == 0 && access in handles && old(onBus) <= SetOf(handles) ==> (mode == Silent <==> silent)
    {
      hide Asked, SetOf, FirstError, Obeyed;
      NothingAsked(Off, handles);
      NothingAsked(SetMode, handles);
      NothingAsked(On, handles);
      offs, sets, ons := [], [], [];
      if !canSetMode || !canBus || handles == [] { return MISSING, offs, sets, ons; }
      rc, offs := AllOff(handles);
      if rc < 0 {
        var _, put := AllOn(handles, 0);
        return rc, offs, sets, put;
      }
      var st;
      st, sets := AskAll(handles, Wanted(silent));
      rc, ons := AllOn(handles, st);
      if rc >= 0 { rc := 0; }
      if rc == 0 {
        ZeroMeansInForce(old(onBus), old(mode), onBus, mode, access, handles, Wanted(silent), rc, offs, sets, ons);
      }
    }

    // -- opening a handle

    /** A handle of its own, with initialisation access if none has it and the driver gives it. */
    method OpenHandle() returns (h: int)
      modifies this`answers, this`open, this`access
      ensures h < 0 ==> open == old(open) && access == old(access)
      ensures h >= 0 ==> h !in old(open) && open == old(open) + {h}
      ensures access == old(access) || (old(access) < 0 && h >= 0 && access == h)
    {
      var a := Next();
      h := if a.code in open then -1 else a.code;
      if h >= 0 {
        if access < 0 && (a.took || open == {}) { access := h; }
        open := open + {h};
      }
    }

    method Close(h: int)
      modifies this`open, this`onBus, this`access
      ensures open == old(open) - {h} && onBus == old(onBus) - {h}
      ensures access == if old(access) == h then -1 else old(access)
    {
      open, onBus := open - {h}, onBus - {h};
      if access == h { access := -1; }
    }

    /** Accepted is not applied; but a listen-only request that cannot be made is an error. */
    method SetOne(h: int, silent: bool) returns (code: int)
      modifies this`answers, this`calls, this`mode
      ensures !canSetMode ==> calls == old(calls) && mode == old(mode) && (code < 0 <==> silent)
      ensures canSetMode ==> calls == old(calls) + [Call(SetMode, h, code)]
      ensures canSetMode ==> mode == if code >= 0 && h == access && onBus == {} then Wanted(silent) else old(mode)
      ensures canSetMode && code >= 0 && h == access && onBus == {} ==> (mode == Silent <==> silent)
    {
      if !canSetMode { return if silent then MISSING else 0; }
      code := SetOutput(h, Wanted(silent));
    }

    /** Bitrate, then mode, then the bus, each refusal closing the handle: it never goes on the bus
        before its mode was accepted, and a first opener's is in force when it does. */
    method Open(fd: bool, silent: bool) returns (rc: int)
      requires Valid()
      modifies this`answers, this`calls, this`open, this`onBus, this`access, this`mode
      ensures Valid()
      ensures rc < 0 ==> open == old(open) && onBus == old(onBus) && access == old(access)
      ensures rc >= 0 ==> rc !in old(open) && open == old(open) + {rc} && onBus == old(onBus) + {rc}
      ensures mode == old(mode) || mode == Wanted(silent)
      ensures rc >= 0 && access == rc && old(onBus) == {} && canSetMode ==> (mode == Silent <==> silent)
      ensures rc >= 0 ==> canSetMode || !silent
      ensures forall i :: |old(calls)| <= i < |calls| && calls[i].kind == On && canSetMode ==>
                i > |old(calls)| &&
                var c := calls[i - 1]; c.kind == SetMode && c.handle == calls[i].handle && c.code >= 0
    {
      var h := OpenHandle();
      if h < 0 { return h; }
      var rate := Next();
      if rate.code < 0 { Close(h); return rate.code; }
      if fd {
        var data := Next();
        if data.code < 0 { Close(h); return data.code; }
      }
      var st := SetOne(h, silent);
      if st < 0 { Close(h); return st; }
      st := BusOn(h);
      if st < 0 { Close(h); return st; }
      rc := h;
    }
  }

  /** A switch through any handles at all that reports success and changes nothing: the driver obeys none of
      them, refuses none, and says 0 to each. */
  method ZeroNotInForce(handles: seq<int>) returns (c: Channel, silent: bool, rc: int)
    requires handles != [] && -1 !in handles
    ensures fresh(c) && rc == 0 && silent && c.mode != Silent && forall h :: h in handles ==> h in c.onBus
  {
    c := new Channel(true, true, []);
    silent := true;
    ghost var offs, sets, ons;
    rc, offs, sets, ons := c.SetSilentAll(handles, silent);
    ZeroMeansInForce({}, Normal, c.onBus, c.mode, -1, handles, Silent, rc, offs, sets, ons);
  }
}
