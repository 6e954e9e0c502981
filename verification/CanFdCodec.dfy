/**
 CAN and CAN-FD frames through the Vector shim: the DLC coding of ISO 11898-1 as the shim
 tabulates it, the FD transmit event, and the decoders of the two port kinds.
 */
module CanFdCodec {
  import opened Basics
  import opened VectorReader

  const EDL: bv32 := 0x0001
  const BRS: bv32 := 0x0002
  const ESI: bv32 := 0x0004
  const RTR: bv32 := 0x0010
  const EF: bv32 := 0x0200
  const V3_ERROR: bv32 := 0x01
  const V3_REMOTE: bv32 := 0x10
  const V3_TX: bv32 := 0xC0
  const NO_DLC := 0xFF
  const MAX_DATA := 64
  const QUEUE_FULL := 11

  // ---- DLC <-> length ------------------------------------------------------------------------

  function LenFromDlc(dlc: nat, edl: bool, rtr: bool): (n: nat)
    ensures n <= MAX_DATA
  {
    if rtr then 0
    else if dlc < 9 then dlc
    else if !edl then 8
    else match dlc
         case 9 => 12
         case 10 => 16
         case 11 => 20
         case 12 => 24
         case 13 => 32
         case 14 => 48
         case _ => 64
  }

  predicate Legal(n: nat) {
    n <= 8 || n in [12, 16, 20, 24, 32, 48, 64]
  }

  /** `dlc` is the code of the smallest FD frame that holds `len` bytes. */
  ghost predicate Codes(dlc: nat, len: nat) {
    && dlc <= 15 && len <= LenFromDlc(dlc, true, false)
    && forall d: nat :: d <= 15 && len <= LenFromDlc(d, true, false) ==>
         LenFromDlc(dlc, true, false) <= LenFromDlc(d, true, false)
  }

  method DlcForLen(len: nat) returns (dlc: nat, padded: nat)
    ensures len <= MAX_DATA ==> Codes(dlc, len) && padded == LenFromDlc(dlc, true, false) && dlc != NO_DLC
    ensures len > MAX_DATA ==> dlc == NO_DLC && padded == 0
    ensures len <= 8 ==> dlc == len == padded
  {
    var sizes := [12, 16, 20, 24, 32, 48, 64];
    if len <= 8 { return len, len; }
    var i := 0;
    while i < 7
      invariant 0 <= i <= 7
      invariant i > 0 ==> len > sizes[i - 1]
    {
      assert sizes[i] == LenFromDlc(9 + i, true, false);
      if len <= sizes[i] {
        FirstThatFits(9 + i, len);
        return 9 + i, sizes[i];
      }
      i := i + 1;
    }
    return NO_DLC, 0;
  }

  lemma FirstThatFits(dlc: nat, len: nat)
    requires 0 < dlc <= 15 && LenFromDlc(dlc - 1, true, false) < len <= LenFromDlc(dlc, true, false)
    ensures Codes(dlc, len)
  {
    forall d: nat | d <= 15 && len <= LenFromDlc(d, true, false)
      ensures LenFromDlc(dlc, true, false) <= LenFromDlc(d, true, false)
    {
      if d < dlc - 1 { DlcGrows(d, dlc - 1); } else if dlc < d { DlcGrows(dlc, d); }
    }
  }

  lemma DlcGrows(a: nat, b: nat)
    requires a < b <= 15
    ensures LenFromDlc(a, true, false) < LenFromDlc(b, true, false)
  {}

  /** A classic code is its own length, eight at most, and a remote frame carries nothing. */
  lemma OtherLengths(dlc: nat, edl: bool)
    ensures LenFromDlc(dlc, edl, true) == 0
    ensures dlc <= 8 ==> LenFromDlc(dlc, false, false) == dlc
    ensures dlc > 8 ==> LenFromDlc(dlc, false, false) == 8
  {}

  /** One code per length. */
  lemma CodesOnce(a: nat, b: nat, len: nat)
    requires Codes(a, len) && Codes(b, len)
    ensures a == b
  {
    if a < b { DlcGrows(a, b); } else if b < a { DlcGrows(b, a); }
  }

  /** The two directions are inverse on the codes, and exactly the legal sizes need no padding. */
  lemma DlcInverse(dlc: nat, len: nat)
    requires dlc <= 15
    ensures Codes(dlc, LenFromDlc(dlc, true, false)) && Legal(LenFromDlc(dlc, true, false))
    ensures Codes(dlc, len) ==> (LenFromDlc(dlc, true, false) == len <==> Legal(len))
  {
    forall d: nat | d <= 15 && LenFromDlc(dlc, true, false) <= LenFromDlc(d, true, false)
      ensures dlc <= d
    {
      if d < dlc { DlcGrows(d, dlc); }
    }
    if Codes(dlc, len) && Legal(len) {
      assert exists d: nat :: d <= 15 && LenFromDlc(d, true, false) == len by {
        var d :=
          if len <= 8 then len else if len <= 24 then 6 + len / 4
          else if len == 32 then 13 else if len == 48 then 14 else 15;
        assert LenFromDlc(d, true, false) == len;
      }
    }
  }

  // ---- the FD transmit event -----------------------------------------------------------------

  datatype Request = Request(id: bv32, data: seq<nat>, ext: bool, rtr: bool, fd: bool, brs: bool)
  datatype TxEvent = TxEvent(canId: bv32, flags: bv32, dlc: nat, data: seq<nat>)

  /** The identifier field: bit 31 marks a 29-bit identifier. */
  function Marked(id: bv32, ext: bool): bv32 { if ext then id | 0x8000_0000 else id }
  function IdOf(field: bv32): bv32 { field & 0x1FFF_FFFF }
  predicate ExtOf(field: bv32) { field & 0x8000_0000 != 0 }
  predicate Fits(id: bv32) { id <= 0x1FFF_FFFF }

  function TxFlags(r: Request): bv32 {
    (if r.fd then EDL else 0) | (if r.brs then BRS else 0) | (if r.rtr then RTR else 0)
  }

  function Zeros(n: nat): (z: seq<nat>)
    ensures |z| == n && forall i :: 0 <= i < n ==> z[i] == 0
  {
    seq(n, _ => 0)
  }

  /** The refusals made before the library is asked. */
  function Refusal(r: Request): int {
    if r.fd && r.rtr then -2001
    else if r.brs && !r.fd then -2002
    else if |r.data| > (if r.fd then MAX_DATA else 8) then -2003
    else 0
  }

  /** What is refused, and as what: a remote FD frame, a classic frame with a bit-rate switch, and a payload too
      long for its kind; everything a bus can carry goes. */
  lemma RefusedAs(r: Request)
    ensures Refusal(r) == -2001 <==> r.fd && r.rtr
    ensures Refusal(r) == -2002 <==> r.brs && !r.fd
    ensures Refusal(r) == -2003 <==> if r.fd then !r.rtr && |r.data| > 64 else !r.brs && |r.data| > 8
    ensures Refusal(r) == 0 <==> if r.fd then !r.rtr && |r.data| <= 64 else !r.brs && |r.data| <= 8
  {}

  /** `ev` is what goes to xlCanTransmitEx for `r`: the payload, zero-filled to the end. */
  ghost predicate Encodes(ev: TxEvent, r: Request) {
    && ev.canId == Marked(r.id, r.ext)
    && ev.flags == TxFlags(r) && Codes(ev.dlc, |r.data|)
    && |r.data| <= MAX_DATA && ev.data == r.data + Zeros(MAX_DATA - |r.data|)
  }

  /** The event's payload: the caller's bytes over a buffer of zeros. */
  method Padded(bytes: seq<nat>, padded: nat) returns (payload: seq<nat>)
    requires |bytes| <= padded <= MAX_DATA
    ensures payload == bytes + Zeros(MAX_DATA - |bytes|)
  {
    var data := new nat[MAX_DATA](_ => 0);
    var i := 0;
    while i < padded && i < |bytes|
      invariant 0 <= i <= |bytes|
      invariant data[..i] == bytes[..i]
      invariant forall k :: i <= k < MAX_DATA ==> data[k] == 0
    {
      data[i] := bytes[i];
      i := i + 1;
    }
    payload := data[..];
  }

  /** `st` and `sent` are the library's answer. The length on the wire is reported when it took the
      frame, the caller's own otherwise. */
  method WriteFd(r: Request, st: int, sent: nat) returns (rc: int, outLen: nat, ev: Option<TxEvent>)
    ensures Refusal(r) != 0 ==> rc == Refusal(r) && ev == None && outLen == |r.data|
    ensures Refusal(r) == 0 ==> ev.Some? && Encodes(ev.value, r)
    ensures Refusal(r) == 0 ==>
              rc == if st == 0 then (if sent == 0 then -2000 else 0) else if st == QUEUE_FULL then -2000 else -st
    ensures Refusal(r) == 0 ==>
              outLen == if st == 0 && sent > 0 then LenFromDlc(ev.value.dlc, true, false) else |r.data|
  {
    hide Codes, Zeros, TxFlags, Marked, LenFromDlc;
    outLen, ev := |r.data|, None;
    if r.fd && r.rtr { return -2001, outLen, ev; }
    if r.brs && !r.fd { return -2002, outLen, ev; }
    var dlc, padded := DlcForLen(|r.data|);
    if dlc == NO_DLC { return -2003, outLen, ev; }
    if !r.fd && |r.data| > 8 { return -2003, outLen, ev; }
    var data := Padded(r.data, padded);
    ev := Some(TxEvent(Marked(r.id, r.ext), TxFlags(r), dlc, data));
    if st == 0 {
      if sent == 0 { return -2000, outLen, ev; }
      return 0, padded, ev;
    }
    rc := if st == QUEUE_FULL then -2000 else -st;
  }

  // ---- the decoders --------------------------------------------------------------------------

  datatype V4Event =
    | RxOk(canId: bv32, flags: bv32, dlc: nat, data: seq<nat>)
    | RxError | TxError | TxOk | TxRequest
    | V4Chip(status: int) | V4Other

  datatype V3Event = Msg(id: bv32, flags: bv32, dlc: nat, bytes: seq<nat>) | V3Chip(state: int) | V3Other

  function Min(a: nat, b: nat): nat { if a < b then a else b }

  /** How many bytes a frame hands up: for a remote frame, how many it asked for. */
  function HandedUp(dlc: nat, fd: bool, rtr: bool): nat {
    if rtr then Min(dlc, 8) else LenFromDlc(dlc, fd, rtr)
  }

  function DecodedV4(ev: V4Event): Event
    requires ev.RxOk? ==> |ev.data| == MAX_DATA
  {
    match ev
    case V4Chip(s) => ChipState(s)
    case RxError => ErrorRecord
    case TxError => ErrorRecord
    case RxOk(id, flags, dlc, data) =>
      if flags & EF != 0 then ErrorRecord
      else
        var fd, rtr := flags & EDL != 0, flags & RTR != 0;
        Data(Frame(IdOf(id), ExtOf(id), rtr, fd, flags & BRS != 0, flags & ESI != 0,
                   data[..HandedUp(dlc, fd, rtr)]))
    case _ => Other
  }

  function DecodedV3(ev: V3Event): Event
    requires ev.Msg? ==> |ev.bytes| == 8
  {
    match ev
    case V3Chip(s) => ChipState(s)
    case V3Other => Other
    case Msg(id, flags, dlc, bytes) =>
      if flags & V3_ERROR != 0 then ErrorRecord
      else if flags & V3_TX != 0 then Other
      else Data(Frame(IdOf(id), ExtOf(id), flags & V3_REMOTE != 0, false, false, false, bytes[..Min(dlc, 8)]))
  }

  /** Traffic is what was received without an error, never what this port sent; errors of either direction are
      errors, and the chip's state is told apart from both. */
  lemma WhatIsTraffic(v4: V4Event, v3: V3Event)
    requires (v4.RxOk? ==> |v4.data| == MAX_DATA) && (v3.Msg? ==> |v3.bytes| == 8)
    ensures DecodedV4(v4).Data? <==> v4.RxOk? && v4.flags & EF == 0
    ensures DecodedV4(v4) == ErrorRecord <==> v4.RxError? || v4.TxError? || (v4.RxOk? && v4.flags & EF != 0)
    ensures DecodedV4(v4).ChipState? <==> v4.V4Chip?
    ensures v4.V4Chip? ==> DecodedV4(v4).status == v4.status
    ensures DecodedV3(v3).Data? <==> v3.Msg? && v3.flags & V3_ERROR == 0 && v3.flags & V3_TX == 0
    ensures DecodedV3(v3) == ErrorRecord <==> v3.Msg? && v3.flags & V3_ERROR != 0
    ensures DecodedV3(v3).ChipState? <==> v3.V3Chip?
    ensures v3.V3Chip? ==> DecodedV3(v3).status == v3.state
  {}

  /** The payload is copied into the caller's buffer, byte by byte, and nothing past it is touched. */
  method CopyOut(n: nat, from: seq<nat>, buffer: array<nat>)
    requires n <= |from| && n <= buffer.Length
    modifies buffer
    ensures buffer[..n] == from[..n] && buffer[n..] == old(buffer[n..])
  {
    for i := 0 to n
      invariant buffer[..i] == from[..i] && buffer[i..] == old(buffer[i..])
    {
      buffer[i] := from[i];
    }
  }

  method DecodeV4(ev: V4Event, buffer: array<nat>) returns (e: Event)
    requires ev.RxOk? ==> |ev.data| == MAX_DATA
    requires buffer.Length >= MAX_DATA
    modifies buffer
    ensures e == DecodedV4(ev)
    ensures e.Data? ==> var n := |e.frame.data|; buffer[..n] == e.frame.data && buffer[n..] == old(buffer[n..])
    ensures !e.Data? ==> buffer[..] == old(buffer[..])
  {
    if ev.V4Chip? { return ChipState(ev.status); }
    if ev.RxError? || ev.TxError? { return ErrorRecord; }
    if !ev.RxOk? { return Other; }
    if ev.flags & EF != 0 { return ErrorRecord; }
    var rtr, fd := ev.flags & RTR != 0, ev.flags & EDL != 0;
    var n := LenFromDlc(ev.dlc, fd, rtr);
    if rtr { n := if ev.dlc > 8 then 8 else ev.dlc; }
    if n > MAX_DATA { n := MAX_DATA; }
    CopyOut(n, ev.data, buffer);
    e := Data(Frame(IdOf(ev.canId), ExtOf(ev.canId), rtr, fd, ev.flags & BRS != 0, ev.flags & ESI != 0, buffer[..n]));
  }

  // ---- round trips ---------------------------------------------------------------------------

  /** A sent event as the other side's V4 port receives it: the identifier, the flags and the DLC are
      the wire's, the sender's error state is its own, and the bytes are those the frame carries --
      a remote frame carries none, and what lies past the payload is not specified. */
  ghost predicate Received(rx: V4Event, tx: TxEvent, esi: bool) {
    && rx.RxOk? && rx.canId == tx.canId && rx.dlc == tx.dlc && |rx.data| == MAX_DATA == |tx.data|
    && rx.flags == tx.flags | (if esi then ESI else 0)
    && var n := LenFromDlc(tx.dlc, tx.flags & EDL != 0, tx.flags & RTR != 0);
    && rx.data[..n] == tx.data[..n]
    && (tx.flags & RTR != 0 ==> rx.data == Zeros(MAX_DATA))
  }

  lemma FlagsSurvive(fd: bool, brs: bool, rtr: bool, esi: bool)
    ensures
      var tx: bv32 := (if fd then EDL else 0) | (if brs then BRS else 0) | (if rtr then RTR else 0);
      var rx: bv32 := tx | (if esi then ESI else 0);
      && (tx & EDL != 0 <==> fd) && (tx & RTR != 0 <==> rtr)
      && (rx & EDL != 0 <==> fd) && (rx & BRS != 0 <==> brs) && (rx & RTR != 0 <==> rtr) && (rx & ESI != 0 <==> esi)
      && rx & EF == 0
  {}

  lemma IdUnmarked(id: bv32)
    ensures IdOf(Marked(id, true)) == IdOf(id) && ExtOf(Marked(id, true))
  {}

  lemma IdFits(id: bv32)
    ensures IdOf(id) == id <==> Fits(id)
  {}

  /** The identifier comes back as sent if and only if it has 29 bits. */
  lemma IdSurvives(id: bv32, ext: bool)
    ensures IdOf(Marked(id, ext)) == id <==> Fits(id)
  {
    if ext { IdUnmarked(id); }
    IdFits(id);
    hide IdOf, Fits;
    assert Marked(id, false) == id;
    hide Marked;
  }

  /** The kind comes back as sent unless an 11-bit identifier carries the flag bit itself. */
  lemma KindSurvives(id: bv32, ext: bool)
    ensures ExtOf(Marked(id, ext)) <==> ext || ExtOf(id)
  {
    if ext { IdUnmarked(id); }
  }

  /** No identifier that fits has the bit. */
  lemma FitsUnmarked(id: bv32)
    ensures Fits(id) ==> !ExtOf(id)
  {}

  lemma FlagsOf(r: Request)
    ensures (TxFlags(r) & EDL != 0 <==> r.fd) && (TxFlags(r) & RTR != 0 <==> r.rtr)
  {
    FlagsSurvive(r.fd, r.brs, r.rtr, false);
  }

  lemma DecodesTo(r: Request, tx: TxEvent, rx: V4Event, esi: bool)
    requires tx.flags == TxFlags(r) && rx.RxOk? && |rx.data| == MAX_DATA && rx.canId == tx.canId && rx.dlc == tx.dlc
    requires rx.flags == tx.flags | (if esi then ESI else 0)
    ensures DecodedV4(rx) == Data(Frame(IdOf(tx.canId), ExtOf(tx.canId), r.rtr, r.fd, r.brs, esi,
                                        rx.data[..HandedUp(tx.dlc, r.fd, r.rtr)]))
  {
    FlagsSurvive(r.fd, r.brs, r.rtr, esi);
  }

  /** An accepted frame comes back as a frame with its flags. The identifier is kept if and only if it
      has 29 bits, and the kind if and only if an 11-bit one does not carry the flag bit itself. */
  lemma HeaderRoundTrip(r: Request, tx: TxEvent, rx: V4Event, esi: bool)
    requires Encodes(tx, r) && Received(rx, tx, esi)
    ensures
      && DecodedV4(rx).Data?
      && var f := DecodedV4(rx).frame;
      && f.fd == r.fd && f.brs == r.brs && f.rtr == r.rtr && f.esi == esi
      && (f.id == r.id <==> Fits(r.id))
      && (f.ext == r.ext <==> r.ext || !ExtOf(r.id))
      && (Fits(r.id) ==> f.ext == r.ext)
  {
    hide Codes, Zeros, DecodedV4, TxFlags, LenFromDlc, HandedUp, Marked, IdOf, ExtOf, Fits;
    DecodesTo(r, tx, rx, esi);
    IdSurvives(r.id, r.ext);
    KindSurvives(r.id, r.ext);
    FitsUnmarked(r.id);
  }

  /** A standard identifier that does carry the bit comes back as an extended one, and another. */
  lemma FlaggedIdTurnsExtended(r: Request, tx: TxEvent, rx: V4Event, esi: bool)
    requires Encodes(tx, r) && Received(rx, tx, esi) && !r.ext && r.id == 0x8000_0123
    ensures DecodedV4(rx).Data? && DecodedV4(rx).frame.ext && DecodedV4(rx).frame.id == 0x123
  {
    hide Codes, Zeros, DecodedV4, TxFlags, LenFromDlc, HandedUp;
    DecodesTo(r, tx, rx, esi);
  }

  /** Its payload comes back zero-filled to the smallest legal length that holds it -- exactly as it was
      when that is its own -- and a remote frame comes back asking for the same length. */
  lemma PayloadRoundTrip(r: Request, tx: TxEvent, rx: V4Event, esi: bool)
    requires Refusal(r) == 0 && Encodes(tx, r) && Received(rx, tx, esi)
    ensures
      && DecodedV4(rx).Data?
      && var data := DecodedV4(rx).frame.data;
      && (r.rtr ==> data == Zeros(|r.data|))
      && (!r.rtr ==> data == r.data + Zeros(LenFromDlc(tx.dlc, true, false) - |r.data|))
      && (!r.rtr && Legal(|r.data|) ==> data == r.data)
  {
    hide DecodedV4, TxFlags;
    DecodesTo(r, tx, rx, esi);
    FlagsOf(r);
    hide Codes, LenFromDlc, HandedUp, Legal;
    PayloadSurvives(r, tx, rx);
  }

  lemma PayloadSurvives(r: Request, tx: TxEvent, rx: V4Event)
    requires Refusal(r) == 0 && Codes(tx.dlc, |r.data|) && |r.data| <= MAX_DATA
    requires tx.data == r.data + Zeros(MAX_DATA - |r.data|)
    requires rx.RxOk? && |rx.data| == MAX_DATA
    requires rx.data[..LenFromDlc(tx.dlc, r.fd, r.rtr)] == tx.data[..LenFromDlc(tx.dlc, r.fd, r.rtr)]
    requires r.rtr ==> rx.data == Zeros(MAX_DATA)
    ensures r.rtr ==> rx.data[..HandedUp(tx.dlc, r.fd, r.rtr)] == Zeros(|r.data|)
    ensures !r.rtr ==>
              rx.data[..HandedUp(tx.dlc, r.fd, r.rtr)] == r.data + Zeros(LenFromDlc(tx.dlc, true, false) - |r.data|)
    ensures Legal(|r.data|) ==> LenFromDlc(tx.dlc, true, false) == |r.data|
  {
    DlcInverse(tx.dlc, |r.data|);
    if !r.fd { CodesOnce(tx.dlc, |r.data|, |r.data|) by { DlcInverse(|r.data|, |r.data|); } }
  }

  /** A classic frame reads the same on a classic port and on an FD one, remote frames included. */
  lemma PortKindsAgree(id: bv32, rtr: bool, dlc: nat, bytes: seq<nat>, data: seq<nat>)
    requires |bytes| == 8 && |data| == MAX_DATA && data[..8] == bytes
    ensures DecodedV3(Msg(id, if rtr then V3_REMOTE else 0, dlc, bytes))
         == DecodedV4(RxOk(id, if rtr then RTR else 0, dlc, data))
  {
    assert V3_REMOTE & V3_ERROR == 0 && V3_REMOTE & V3_TX == 0 && V3_REMOTE & V3_REMOTE != 0;
    FlagsSurvive(false, false, rtr, false);
    assert data[..Min(dlc, 8)] == bytes[..Min(dlc, 8)];
  }
}
