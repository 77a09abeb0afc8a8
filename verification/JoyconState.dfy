/** What the handlers of bdk/input/joycon.c do to the two Joy-Con contexts and to the report
    they publish, as functions from state to state, and the laws of whole runs of them.
    The word `buttons`, a union with single-bit fields in joycon.h, is the set of the
    positions of its one bits. */
module JoyconState {
  import opened Words
  import opened Bits

  const MASK_L: nat := 0xFF2900  // JC_BTN_MASK_L
  const MASK_R: nat := 0x0056FF  // JC_BTN_MASK_R

  /** The left rail is on UART C, the right one on UART B. */
  datatype Side = Left | Right

  type Buttons = set<nat>

  function OnesOf(x: nat): Buttons
  {
    set i | 0 <= i < 32 && Bit(x, i)
  }

  /** The positions of the mask of one half. */
  function Half(side: Side): Buttons
  {
    OnesOf(if side.Left? then MASK_L else MASK_R)
  }

  /** type & JC_ID_L, type & JC_ID_R and type & JC_ID_HORI */
  predicate HasL(typ: nat) { Bit(typ, 0) }
  predicate HasR(typ: nat) { Bit(typ, 1) }
  predicate IsHori(typ: nat) { Bit(typ, 5) }

  /** Times are milliseconds in 32 bits. */
  datatype Context = Context(typ: nat, mac: seq<nat>, connected: bool, rumbleSent: bool, lastReceived: nat,
                             nextStatus: nat)

  datatype Stick = Stick(x: nat, y: nat)

  /** What a pad has told of its pairing with a host; the type is 0 if it has not. */
  datatype Pairing = Pairing(typ: nat, mac: seq<nat>, host: seq<nat>, ltk: seq<nat>)

  /** The published part of jc_gamepad that the handlers below write. */
  datatype Pad = Pad(buttons: Buttons, lstick: Stick, rstick: Stick, connL: bool, connR: bool, battL: nat, battR: nat,
                     btL: Pairing, btR: Pairing)

  datatype State = State(l: Context, r: Context, pad: Pad) {
    function Ctx(side: Side): Context
    {
      if side.Left? then l else r
    }

    function With(side: Side, c: Context): State
    {
      if side.Left? then this.(l := c) else this.(r := c)
    }

    function Conn(side: Side): bool
    {
      if side.Left? then pad.connL else pad.connR
    }

    function Paired(side: Side): Pairing
    {
      if side.Left? then pad.btL else pad.btR
    }
  }

  function Zeros(n: nat): seq<nat>
  {
    seq(n, i => 0)
  }

  const NO_PAD := Context(0, Zeros(6), false, false, 0, 0)
  const NO_PAIRING := Pairing(0, Zeros(6), Zeros(6), Zeros(16))

  const START := State(NO_PAD, NO_PAD, Pad({}, Stick(0, 0), Stick(0, 0), false, false, 0, 0, NO_PAIRING, NO_PAIRING))

  /** A receive buffer, as bytes. */
  type Buffer = b: seq<nat> | |b| == 0x100 && forall i :: 0 <= i < |b| ==> b[i] < 256 witness seq(0x100, i => 0)

  // Offsets into the buffer: the command of the wired header, its data, and the payload.
  const CMD: nat := 5
  const DATA: nat := 6
  const PAYLOAD: nat := 12

  /** The parts of an input report that are used. */
  datatype Input = Input(buttons: Buttons, lstick: Stick, rstick: Stick, batt: nat)

  datatype Packet =
    | InputReport(input: Input)
    | PairingReply(host: seq<nat>, key: seq<nat>)  // the host's address and the link key, as received
    | OtherHid
    | TypeReply(typ: nat, address: seq<nat>)  // the six bytes behind the type
    | Unhandled
  {
    /** The packets that jc_parse_wired_hid gets. */
    predicate IsHid()
    {
      InputReport? || PairingReply? || OtherHid?
    }
  }

  /** btn_right | btn_shared << 8 | btn_left << 16 */
  function ButtonsOf(b: Buffer): Buttons
  {
    set i | 0 <= i < 24 && Bit(b[PAYLOAD + 3 + i / 8], i % 8)
  }

  /** Two 12-bit coordinates in three bytes. */
  function StickOf(h: nat, m: nat, v: nat): Stick
  {
    Stick(h + m % 16 * 256, m / 16 + v * 16)
  }

  /** A reply to a flash read of 0x1A bytes that holds pairing data, in the layout of the structs. */
  predicate HasPairing(b: Buffer)
  {
    && b[PAYLOAD] == 0x21 && b[PAYLOAD + 14] == 0x10
    && b[PAYLOAD + 19] == 0x1A && b[PAYLOAD + 20] == 0x95 && b[PAYLOAD + 21] == 0x22
  }

  /** The switches over the commands of a received packet. */
  function Parse(b: Buffer): Packet
  {
    if b[CMD] == 0x9A || b[CMD] == 0x92 then
      if b[PAYLOAD] == 0x00 || b[PAYLOAD] == 0x30 then ParseInput(b)
      else if HasPairing(b) then PairingReply(b[PAYLOAD + 24..PAYLOAD + 30], b[PAYLOAD + 30..PAYLOAD + 46])
      else OtherHid
    else if b[CMD] == 0x94 && b[DATA] == 0x01 then
      TypeReply(b[DATA + 6], b[DATA + 7..DATA + 13])
    else
      Unhandled
  }

  function ParseInput(b: Buffer): Packet
  {
      InputReport(Input(ButtonsOf(b),
                        StickOf(b[PAYLOAD + 6], b[PAYLOAD + 7], b[PAYLOAD + 8]),
                        StickOf(b[PAYLOAD + 9], b[PAYLOAD + 10], b[PAYLOAD + 11]),
                        b[PAYLOAD + 2] / 16))
  }

  /** Which half of the report a pad of this type fills: the left one if it has a left bit. */
  predicate Fills(typ: nat, side: Side)
  {
    if side.Left? then HasL(typ) else !HasL(typ) && HasR(typ)
  }

  /** buttons &= ~mask; buttons |= x & mask */
  function Merge(buttons: Buttons, x: Buttons, half: Buttons): Buttons
  {
    (buttons - half) + (x * half)
  }

  /** jc_parse_wired_hid on an input report from the given rail. */
  function Report(s: State, rail: Side, i: Input): State
  {
    var typ := s.Ctx(rail).typ;
    var p := s.pad;
    var p1 :=
      if Fills(typ, Left) then
        p.(buttons := Merge(p.buttons, i.buttons, Half(Left)), lstick := i.lstick, battL := i.batt)
      else if Fills(typ, Right) then
        p.(buttons := Merge(p.buttons, i.buttons, Half(Right)), rstick := i.rstick, battR := i.batt)
      else p;
    s.(pad := p1.(connL := s.l.connected, connR := s.r.connected))
  }

  function Reversed(bytes: seq<nat>): seq<nat>
  {
    seq(|bytes|, i requires 0 <= i < |bytes| => bytes[|bytes| - 1 - i])
  }

  /** jc_parse_wired_init: the address arrives last byte first. */
  function InitReply(s: State, rail: Side, typ: nat, address: seq<nat>): State
  {
    s.With(rail, s.Ctx(rail).(typ := typ, mac := Reversed(address), connected := true))
  }

  /** jc_parse_wired_hid on pairing data: the link key is published last byte first. */
  function Pair(s: State, rail: Side, host: seq<nat>, key: seq<nat>): State
  {
    var c := s.Ctx(rail);
    var told := Pairing(c.typ, c.mac, host, Reversed(key));
    s.(pad := if HasL(c.typ) then s.pad.(btL := told) else s.pad.(btR := told))
  }

  /** jc_parse_wired_hid, which notes the time whatever it was given. */
  function Hid(s: State, rail: Side, p: Packet, now: nat): State
  {
    var s1 := match p
      case InputReport(i) => Report(s, rail, i)
      case PairingReply(host, key) => Pair(s, rail, host, key)
      case _ => s;
    s1.With(rail, s1.Ctx(rail).(lastReceived := now))
  }

  /** jc_uart_pkt_parse. */
  function Receive(s: State, rail: Side, p: Packet, now: nat): State
  {
    if p.IsHid() then Hid(s, rail, p, now)
    else if p.TypeReply? then InitReply(s, rail, p.typ, p.address)
    else s
  }

  /** The start of a handshake in jc_init_conn. */
  function Clear(s: State, side: Side): State
  {
    var p := s.pad.(buttons := s.pad.buttons - Half(side));
    s.(pad := if side.Left? then p.(connL := false) else p.(connR := false))
  }

  /** jc_conn_check for one rail found empty. */
  function Detach(s: State, side: Side): State
  {
    var s1 := Clear(s, side).With(side, s.Ctx(side).(connected := false, rumbleSent := false));
    s1.(pad := if side.Left? then s1.pad.(battL := 0, btL := s1.pad.btL.(typ := 0))
               else s1.pad.(battR := 0, btR := s1.pad.btR.(typ := 0)))
  }

  predicate WantsRumble(c: Context)
  {
    c.connected && !c.rumbleSent
  }

  function AfterRumble(c: Context): Context
  {
    c.(rumbleSent := c.rumbleSent || c.connected)
  }

  /** jc_send_init_rumble: whichever rail asks, both connected sides count as served. */
  function Rumble(s: State): State
  {
    if WantsRumble(s.r) || WantsRumble(s.l) then s.(l := AfterRumble(s.l), r := AfterRumble(s.r)) else s
  }

  /** A request for status from this rail turns into a rumble first: a Hori pad never does. */
  predicate RumblesFirst(s: State, rail: Side)
  {
    !IsHori(s.Ctx(rail).typ) && (WantsRumble(s.r) || WantsRumble(s.l))
  }

  predicate Due(c: Context, now: nat)
  {
    c.nextStatus <= now && c.connected
  }

  /** jc_req_nx_pad_status; the time is read once to see what is due and once more, `later`, to
      set when the next request will be. */
  function RequestStatus(s: State, rail: Side, now: nat, later: nat): State
  {
    if RumblesFirst(s, rail) then Rumble(s)
    else if Due(s.Ctx(rail), now) then s.With(rail, s.Ctx(rail).(nextStatus := (later + 15) % U32))
    else s
  }

  /** The end of a handshake in jc_init_conn. */
  function Settle(s: State, rail: Side, now: nat): State
  {
    s.With(rail, s.Ctx(rail).(lastReceived := now))
  }

  /** Everything that can happen, in any order; joycon_poll is one such order. */
  datatype Event =
    | Received(side: Side, packet: Packet, now: nat)
    | Handshake(side: Side)
    | Settled(side: Side, now: nat)
    | Detached(side: Side)
    | StatusRequest(side: Side, now: nat, later: nat)

  function Step(s: State, e: Event): State
  {
    match e
    case Received(side, p, now) => Receive(s, side, p, now)
    case Handshake(side) => Clear(s, side)
    case Settled(side, now) => Settle(s, side, now)
    case Detached(side) => Detach(s, side)
    case StatusRequest(side, now, later) => RequestStatus(s, side, now, later)
  }

  function After(s: State, es: seq<Event>): State
  {
    if es == [] then s else Step(After(s, es[..|es| - 1]), es[|es| - 1])
  }

  function Run(es: seq<Event>): State
  {
    After(START, es)
  }

  // ---------------------------------------------------------------- buttons

  /** The masks share no bit. */
  lemma HalvesDisjoint()
    ensures Half(Left) !! Half(Right)
  {
    assert !Bit(MASK_L, 0) && !Bit(MASK_L, 1) && !Bit(MASK_L, 2) && !Bit(MASK_L, 3);
    assert !Bit(MASK_L, 4) && !Bit(MASK_L, 5) && !Bit(MASK_L, 6) && !Bit(MASK_L, 7);
    var l, r := MASK_L / 256, MASK_R / 256;
    assert l == 0xFF29 && r == 0x56;
    assert !Bit(0xFF29, 1) && !Bit(0xFF29, 2) && !Bit(0xFF29, 4) && !Bit(0xFF29, 6);
    assert !Bit(0x56, 0) && !Bit(0x56, 3) && !Bit(0x56, 5);
    ByteUp(MASK_L, 1);
    ByteUp(MASK_L, 2);
    ByteUp(MASK_L, 4);
    ByteUp(MASK_L, 6);
    ByteUp(MASK_R, 0);
    ByteUp(MASK_R, 3);
    ByteUp(MASK_R, 5);
    forall i | 15 <= i < 32
      ensures !Bit(MASK_R, i)
    {
      assert Pow2(5) == 32 && Pow2(10) == 32 * Pow2(5) && Pow2(15) == 32 * Pow2(10);
      HighBit(MASK_R, 15, i);
    }
  }

  /** How one event moves what was last reported for a half: a report from a pad whose type
      fills this half sets it, a clear of this half removes it. */
  function HalfAfter(s: State, e: Event, last: Buttons, side: Side): Buttons
  {
    match e
    case Received(rail, p, _) =>
      if p.InputReport? && Fills(s.Ctx(rail).typ, side) then p.input.buttons * Half(side) else last
    case Handshake(rail) => if rail == side then {} else last
    case Detached(rail) => if rail == side then {} else last
    case Settled(_, _) => last
    case StatusRequest(_, _, _) => last
  }

  /** The buttons of one half as the history tells: those of the last report that filled it
      since it was last cleared, or none. */
  function LastReport(es: seq<Event>, side: Side): Buttons
  {
    if es == [] then {}
    else HalfAfter(Run(es[..|es| - 1]), es[|es| - 1], LastReport(es[..|es| - 1], side), side)
  }

  lemma StepHalves(s: State, e: Event, side: Side)
    requires s.pad.buttons <= Half(Left) + Half(Right)
    ensures Step(s, e).pad.buttons <= Half(Left) + Half(Right)
    ensures Step(s, e).pad.buttons * Half(side) == HalfAfter(s, e, s.pad.buttons * Half(side), side)
  {
    hide Half, HasL, HasR, IsHori, Reversed, Rumble;
    HalvesDisjoint();
    RumbleKeeps(s);
  }

  lemma RumbleKeeps(s: State)
    ensures Rumble(s).pad == s.pad
  {
  }

  /** Over any run: each half of the buttons is that of its last report since its last clear,
      or zero, and no bit outside the two halves is ever set. */
  lemma {:induction false} ButtonsFollowReports(es: seq<Event>, side: Side)
    ensures Run(es).pad.buttons * Half(side) == LastReport(es, side)
    ensures Run(es).pad.buttons <= Half(Left) + Half(Right)
    decreases |es|
  {
    if es != [] {
      ButtonsFollowReports(es[..|es| - 1], side);
      StepHalves(Run(es[..|es| - 1]), es[|es| - 1], side);
    }
  }

  /** Every reply on a rail tells a type that fills that rail's half. */
  ghost predicate OwnTypes(es: seq<Event>)
  {
    forall k :: 0 <= k < |es| && es[k].Received? && es[k].packet.TypeReply? ==> Fills(es[k].packet.typ, es[k].side)
  }

  predicate Replied(es: seq<Event>, side: Side)
  {
    es != [] &&
    (var e := es[|es| - 1];
     (e.Received? && e.side == side && e.packet.TypeReply?) || Replied(es[..|es| - 1], side))
  }

  /** The same by rail, without looking at types: the last report received on this rail, once
      a pad there has told its type. */
  function LastOnRail(es: seq<Event>, side: Side): Buttons
  {
    if es == [] then {}
    else
      var before, e := es[..|es| - 1], es[|es| - 1];
      match e
      case Received(rail, p, _) =>
        if p.InputReport? && rail == side && Replied(before, side) then p.input.buttons * Half(side)
        else LastOnRail(before, side)
      case Handshake(rail) => if rail == side then {} else LastOnRail(before, side)
      case Detached(rail) => if rail == side then {} else LastOnRail(before, side)
      case Settled(_, _) => LastOnRail(before, side)
      case StatusRequest(_, _, _) => LastOnRail(before, side)
  }

  lemma {:induction false} TypesOwn(es: seq<Event>, rail: Side, side: Side)
    requires OwnTypes(es)
    ensures Fills(Run(es).Ctx(rail).typ, side) <==> rail == side && Replied(es, rail)
    decreases |es|
  {
    if es != [] {
      var before, e := es[..|es| - 1], es[|es| - 1];
      TypesOwn(before, rail, side);
      assert e == es[|es| - 1];
    }
  }

  /** With pads on their own rails, each half is that of its own rail's last report. */
  lemma ButtonsFollowRails(es: seq<Event>, side: Side)
    requires OwnTypes(es)
    ensures Run(es).pad.buttons * Half(side) == LastOnRail(es, side)
  {
    ButtonsFollowReports(es, side);
    RailsAreTypes(es, side);
  }

  lemma {:induction false} RailsAreTypes(es: seq<Event>, side: Side)
    requires OwnTypes(es)
    ensures LastReport(es, side) == LastOnRail(es, side)
    decreases |es|
  {
    if es != [] {
      var before, e := es[..|es| - 1], es[|es| - 1];
      RailsAreTypes(before, side);
      if e.Received? {
        TypesOwn(before, e.side, side);
      }
    }
  }

  /** Reports on a rail leave a half alone, whatever they contain, exactly if the type of the pad
      there does not fill it: the left half on the right rail if the type has no left bit, the
      right half on the left rail if the type has the left bit or lacks the right one. */
  lemma ReportsSpare(s: State, rail: Side, side: Side)
    ensures (forall i :: Report(s, rail, i).pad.buttons * Half(side) == s.pad.buttons * Half(side)) <==>
              !Fills(s.Ctx(rail).typ, side)
  {
    HalvesDisjoint();
    if Fills(s.Ctx(rail).typ, side) {
      var bit := InHalf(side);
      var other := Input(if bit in s.pad.buttons then {} else {bit}, Stick(0, 0), Stick(0, 0), 0);
      assert bit in Report(s, rail, other).pad.buttons * Half(side) <==> bit !in s.pad.buttons * Half(side);
    }
  }

  /** A bit of each mask: bit 23 of the left one, bit 0 of the right one. */
  lemma InHalf(side: Side) returns (bit: nat)
    ensures bit in Half(side)
  {
    if side.Left? {
      bit := 23;
      ByteUp(MASK_L, 15);
      ByteUp(0xFF29, 7);
      assert MASK_L / 256 == 0xFF29 && 0xFF29 / 256 == 0xFF && Bit(0xFF, 7);
    } else {
      bit := 0;
      assert Bit(MASK_R, 0);
    }
  }

  // ---------------------------------------------------------------- connection and rumble

  /** The event makes the driver send an init-rumble sequence to this side. */
  predicate Serves(s: State, e: Event, side: Side)
  {
    e.StatusRequest? && !IsHori(s.Ctx(e.side).typ) && WantsRumble(s.Ctx(side))
  }

  /** How many init-rumble sequences have gone to a side, all in all. */
  function Rumbles(es: seq<Event>, side: Side): nat
  {
    if es == [] then 0
    else Rumbles(es[..|es| - 1], side) + if Serves(Run(es[..|es| - 1]), es[|es| - 1], side) then 1 else 0
  }

  /** How many have gone there since it was last detached. */
  function RumblesSince(es: seq<Event>, side: Side): nat
  {
    if es == [] || es[|es| - 1] == Detached(side) then 0
    else RumblesSince(es[..|es| - 1], side) + if Serves(Run(es[..|es| - 1]), es[|es| - 1], side) then 1 else 0
  }

  function Detaches(es: seq<Event>, side: Side): nat
  {
    if es == [] then 0
    else Detaches(es[..|es| - 1], side) + if es[|es| - 1] == Detached(side) then 1 else 0
  }

  lemma StepConnection(s: State, e: Event, side: Side)
    requires (s.Conn(side) || s.Ctx(side).rumbleSent) ==> s.Ctx(side).connected
    ensures (Step(s, e).Conn(side) || Step(s, e).Ctx(side).rumbleSent) ==> Step(s, e).Ctx(side).connected
    ensures Step(s, e).Ctx(side).rumbleSent <==>
              e != Detached(side) && (s.Ctx(side).rumbleSent || Serves(s, e, side))
  {
    hide Half, Merge, Fills, IsHori, HasL, Reversed;
  }

  /** Over any run: a published connection is a connected context, only a connected side counts
      as served, and a side is served at most once between two detaches, exactly when its
      rumble flag says so; all in all at most once more often than it is detached. */
  lemma {:induction false} ConnectionSafety(es: seq<Event>, side: Side)
    ensures Run(es).Conn(side) ==> Run(es).Ctx(side).connected
    ensures Run(es).Ctx(side).rumbleSent ==> Run(es).Ctx(side).connected
    ensures RumblesSince(es, side) == if Run(es).Ctx(side).rumbleSent then 1 else 0
    ensures Rumbles(es, side) <= Detaches(es, side) + RumblesSince(es, side) <= Detaches(es, side) + 1
    decreases |es|
  {
    hide Step;
    if es != [] {
      ConnectionSafety(es[..|es| - 1], side);
      StepConnection(Run(es[..|es| - 1]), es[|es| - 1], side);
    }
  }

  // ---------------------------------------------------------------- pairing

  /** Over any run: pairing data is published for the half that the pad's type at that time gave
      it, and is void from a detach of its side on until a pad tells it anew. */
  lemma {:induction false} PairingSides(es: seq<Event>)
    ensures Run(es).pad.btL.typ != 0 ==> HasL(Run(es).pad.btL.typ)
    ensures !HasL(Run(es).pad.btR.typ)
    decreases |es|
  {
    hide Half, Merge, HasR, IsHori, Reversed;
    if es != [] {
      PairingSides(es[..|es| - 1]);
    }
  }

  /** Some pad has told its pairing since this side was last detached. */
  predicate ToldPairing(es: seq<Event>, side: Side)
  {
    es != [] && es[|es| - 1] != Detached(side) &&
    ((es[|es| - 1].Received? && es[|es| - 1].packet.PairingReply?) || ToldPairing(es[..|es| - 1], side))
  }

  lemma {:induction false} PairingVoid(es: seq<Event>, side: Side)
    ensures Run(es).Paired(side).typ != 0 ==> ToldPairing(es, side)
    decreases |es|
  {
    if es != [] {
      PairingVoid(es[..|es| - 1], side);
    }
  }
}
