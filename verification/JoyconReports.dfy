/** What the Joy-Con driver of bdk/input/joycon.c does, told from received bytes and literal bit
    positions: which bytes of a packet reach which part of the report, what the other events
    change, and when power is switched. */
module JoyconReports {
  import opened Bits
  import opened JoyconState
  import opened Joycon

  // ---------------------------------------------------------------- constants

  /** The masks of the two halves, bit by bit. */
  lemma HalfIs()
    ensures Half(Left) == {8, 11, 13, 16, 17, 18, 19, 20, 21, 22, 23}
    ensures Half(Right) == {0, 1, 2, 3, 4, 5, 6, 7, 9, 10, 12, 14}
  {
    forall i: nat | i < 32
      ensures i in Half(Left) <==> i in {8, 11, 13, 16, 17, 18, 19, 20, 21, 22, 23}
      ensures i in Half(Right) <==> i in {0, 1, 2, 3, 4, 5, 6, 7, 9, 10, 12, 14}
    {
      hide Bit;
      LeftMaskBit(i);
      RightMaskBit(i);
    }
  }

  lemma EightBits(x: nat)
    ensures (Bit(x, 0) <==> x % 2 == 1) && (Bit(x, 1) <==> x / 2 % 2 == 1) && (Bit(x, 2) <==> x / 4 % 2 == 1)
    ensures (Bit(x, 3) <==> x / 8 % 2 == 1) && (Bit(x, 4) <==> x / 16 % 2 == 1) && (Bit(x, 5) <==> x / 32 % 2 == 1)
    ensures (Bit(x, 6) <==> x / 64 % 2 == 1) && (Bit(x, 7) <==> x / 128 % 2 == 1)
  {
    hide Bit;
    BitIs(x, 0);
    BitIs(x, 1);
    BitIs(x, 2);
    BitIs(x, 3);
    BitIs(x, 4);
    BitIs(x, 5);
    BitIs(x, 6);
    BitIs(x, 7);
    assert Pow2(1) == 2 && Pow2(3) == 8 && Pow2(5) == 32 && Pow2(7) == 128;
  }

  lemma LeftMaskBytes(i: nat)
    requires i < 8
    ensures !Bit(0xFF2900, i) && (Bit(0xFF29, i) <==> i in {0, 3, 5}) && Bit(0xFF, i)
  {
    hide Bit;
    EightBits(0xFF2900);
    EightBits(0xFF29);
    EightBits(0xFF);
  }

  lemma LeftMaskBit(i: nat)
    ensures Bit(0xFF2900, i) <==> i in {8, 11, 13, 16, 17, 18, 19, 20, 21, 22, 23}
  {
    hide Bit;
    if i >= 24 {
      assert Pow2(6) == 64 && Pow2(12) == 64 * Pow2(6) && Pow2(18) == 64 * Pow2(12) && Pow2(24) == 64 * Pow2(18);
      HighBit(0xFF2900, 24, i);
    } else {
      LeftMaskBytes(i % 8);
      if i >= 8 { ByteUp(0xFF2900, i - 8); }
      if i >= 16 { ByteUp(0xFF29, i - 16); }
    }
  }

  lemma RightMaskBytes(i: nat)
    requires i < 8
    ensures Bit(0x56FF, i) && (Bit(0x56, i) <==> i in {1, 2, 4, 6})
  {
    hide Bit;
    EightBits(0x56FF);
    EightBits(0x56);
  }

  lemma RightMaskBit(i: nat)
    ensures Bit(0x0056FF, i) <==> i in {0, 1, 2, 3, 4, 5, 6, 7, 9, 10, 12, 14}
  {
    hide Bit;
    if i >= 16 {
      assert Pow2(4) == 16 && Pow2(8) == 16 * Pow2(4) && Pow2(12) == 16 * Pow2(8) && Pow2(16) == 16 * Pow2(12);
      HighBit(0x56FF, 16, i);
    } else {
      RightMaskBytes(i % 8);
      if i >= 8 { ByteUp(0x56FF, i - 8); }
    }
  }

  /** The bits of a pad's type. */
  lemma TypeIs(typ: nat)
    ensures HasL(typ) <==> typ % 2 == 1
    ensures HasR(typ) <==> typ / 2 % 2 == 1
    ensures IsHori(typ) <==> typ / 32 % 2 == 1
  {
    EightBits(typ);
  }

  // ---------------------------------------------------------------- input reports

  lemma ByteBits(x: nat, i: nat)
    requires x < 256
    ensures i >= 8 ==> !Bit(x, i)
  {
    assert Pow2(4) == 16 && Pow2(8) == 16 * Pow2(4);
    if i >= 8 { HighBit(x, 8, i); }
  }

  /** The word of the buttons as the driver computes it, and the set of its bits. */
  lemma ButtonWord(b: Buffer, i: nat)
    ensures i in ButtonsOf(b) <==> Bit(BitOr(BitOr(b[15], Shl32(b[16], 8)), Shl32(b[17], 16)), i)
  {
    hide Bit, BitOr, Shl32;
    OrBit(BitOr(b[15], Shl32(b[16], 8)), Shl32(b[17], 16), i);
    OrBit(b[15], Shl32(b[16], 8), i);
    Shl32Bit(b[16], 8, i);
    Shl32Bit(b[17], 16, i);
    ByteBits(b[15], i);
    if i >= 8 { ByteBits(b[16], i - 8); }
    if i >= 16 { ByteBits(b[17], i - 16); }
  }

  /** Two coordinates of twelve bits each make up the three bytes. */
  lemma StickWord(h: nat, m: nat, v: nat)
    requires h < 256 && m < 256 && v < 256
    ensures var st := StickOf(h, m, v); st.x < 4096 && st.y < 4096 && st.x + 4096 * st.y == h + 256 * m + 65536 * v
  {
  }

  /** A received packet with an input report, by its bytes: a pad whose type has the left bit
      fills the left half of the buttons, the left stick and the left battery level, another one
      with the right bit those of the right; the halves are told bit by bit. */
  lemma ReportOfBytes(s: State, rail: Side, b: Buffer, now: nat)
    requires (b[5] == 0x92 || b[5] == 0x9A) && (b[12] == 0x00 || b[12] == 0x30)
    ensures var p, q := s.pad, Step(s, Received(rail, Parse(b), now)).pad;
            var typ := s.Ctx(rail).typ;
            var word := BitOr(BitOr(b[15], Shl32(b[16], 8)), Shl32(b[17], 16));
            && q.connL == s.l.connected && q.connR == s.r.connected && q.btL == p.btL && q.btR == p.btR
            && (typ % 2 == 1 ==>
                && (forall i :: i in {8, 11, 13, 16, 17, 18, 19, 20, 21, 22, 23} ==>
                      (i in q.buttons <==> Bit(word, i)))
                && (forall i :: i !in {8, 11, 13, 16, 17, 18, 19, 20, 21, 22, 23} ==>
                      (i in q.buttons <==> i in p.buttons))
                && q.lstick.x < 4096 && q.lstick.y < 4096
                && q.lstick.x + 4096 * q.lstick.y == b[18] + 256 * b[19] + 65536 * b[20]
                && q.battL == b[14] / 16 && q.rstick == p.rstick && q.battR == p.battR)
            && (typ % 2 == 0 && typ / 2 % 2 == 1 ==>
                && (forall i :: i in {0, 1, 2, 3, 4, 5, 6, 7, 9, 10, 12, 14} ==> (i in q.buttons <==> Bit(word, i)))
                && (forall i :: i !in {0, 1, 2, 3, 4, 5, 6, 7, 9, 10, 12, 14} ==>
                      (i in q.buttons <==> i in p.buttons))
                && q.rstick.x < 4096 && q.rstick.y < 4096
                && q.rstick.x + 4096 * q.rstick.y == b[21] + 256 * b[22] + 65536 * b[23]
                && q.battR == b[14] / 16 && q.lstick == p.lstick && q.battL == p.battL)
            && (typ % 2 == 0 && typ / 2 % 2 == 0 ==>
                q.buttons == p.buttons && q.lstick == p.lstick && q.rstick == p.rstick && q.battL == p.battL &&
                q.battR == p.battR)
  {
    hide Half, HasL, HasR, IsHori, ButtonsOf, StickOf, OnesOf, BitOr, Shl32, Bit;
    HalfIs();
    TypeIs(s.Ctx(rail).typ);
    StickWord(b[18], b[19], b[20]);
    StickWord(b[21], b[22], b[23]);
    forall i: nat
      ensures i in ButtonsOf(b) <==> Bit(BitOr(BitOr(b[15], Shl32(b[16], 8)), Shl32(b[17], 16)), i)
    {
      ButtonWord(b, i);
    }
  }

  /** A type reply, by its bytes: the pad on this rail is of type b[12], its address is bytes 18
      down to 13, and it is connected from then on.  Nothing else changes. */
  lemma TypeOfBytes(s: State, rail: Side, b: Buffer, now: nat)
    requires b[5] == 0x94 && b[6] == 0x01
    ensures var s' := Step(s, Received(rail, Parse(b), now));
            && s'.Ctx(rail).typ == b[12] && s'.Ctx(rail).connected
            && s'.Ctx(rail).mac == [b[18], b[17], b[16], b[15], b[14], b[13]]
            && s'.Ctx(rail).rumbleSent == s.Ctx(rail).rumbleSent
            && s'.Ctx(rail).lastReceived == s.Ctx(rail).lastReceived
            && s'.Ctx(rail).nextStatus == s.Ctx(rail).nextStatus
            && s'.pad == s.pad && (if rail.Left? then s'.r == s.r else s'.l == s.l)
  {
    hide Half, HasL, HasR, IsHori, ButtonsOf, StickOf;
    assert Reversed(b[13..19]) == [b[18], b[17], b[16], b[15], b[14], b[13]];
  }

  /** Pairing data, by its bytes: published for the left half if the pad's type has the left bit,
      else for the right one, with the type and address of the pad, the host's address from
      bytes 36 to 41 and the key from bytes 57 down to 42. */
  lemma PairingOfBytes(s: State, rail: Side, b: Buffer, now: nat)
    requires (b[5] == 0x92 || b[5] == 0x9A) && b[12] == 0x21 && b[26] == 0x10
    requires b[31] == 0x1A && b[32] == 0x95 && b[33] == 0x22
    ensures var c, p, q := s.Ctx(rail), s.pad, Step(s, Received(rail, Parse(b), now)).pad;
            var told := if c.typ % 2 == 1 then q.btL else q.btR;
            && told.typ == c.typ && told.mac == c.mac && told.host == b[36..42]
            && |told.ltk| == 16 && (forall j :: 0 <= j < 16 ==> told.ltk[j] == b[57 - j])
            && (if c.typ % 2 == 1 then q.btR == p.btR else q.btL == p.btL)
            && q.buttons == p.buttons && q.lstick == p.lstick && q.rstick == p.rstick
            && q.connL == p.connL && q.connR == p.connR && q.battL == p.battL && q.battR == p.battR
  {
    hide Half, HasL, HasR, IsHori, ButtonsOf, StickOf;
    TypeIs(s.Ctx(rail).typ);
    var told := Reversed(b[42..58]);
    assert |told| == 16 && forall j :: 0 <= j < 16 ==> told[j] == b[57 - j];
  }

  /** Any other packet changes nothing of the report; one with the command of a report, whatever
      it is, only moves the time of the rail. */
  lemma OtherBytes(s: State, rail: Side, b: Buffer, now: nat)
    ensures var s' := Step(s, Received(rail, Parse(b), now));
            && (b[5] == 0x92 || b[5] == 0x9A ==>
                && s'.Ctx(rail) == s.Ctx(rail).(lastReceived := now)
                && (if rail.Left? then s'.r == s.r else s'.l == s.l)
                && (b[12] != 0x00 && b[12] != 0x30 &&
                    (b[12] != 0x21 || b[26] != 0x10 || b[31] != 0x1A || b[32] != 0x95 || b[33] != 0x22) ==>
                      s'.pad == s.pad))
            && (b[5] != 0x92 && b[5] != 0x9A && (b[5] != 0x94 || b[6] != 0x01) ==> s' == s)
  {
    hide Half, HasL, HasR, IsHori, ButtonsOf, StickOf, Reversed, Merge;
  }

  // ---------------------------------------------------------------- other events

  /** The start of a handshake: the buttons of the half are released and it counts as
      unconnected in the report, nothing else. */
  lemma HandshakeIs(s: State, side: Side)
    ensures var p, s' := s.pad, Step(s, Handshake(side));
            var half := if side.Left? then {8, 11, 13, 16, 17, 18, 19, 20, 21, 22, 23}
                        else {0, 1, 2, 3, 4, 5, 6, 7, 9, 10, 12, 14};
            && s'.l == s.l && s'.r == s.r
            && s'.pad == (if side.Left? then p.(buttons := p.buttons - half, connL := false)
                          else p.(buttons := p.buttons - half, connR := false))
  {
    hide Half;
    HalfIs();
  }

  /** A detach does the same, disconnects the rail's context, so that its next pad will rumble,
      and voids the battery level and the pairing data of the half. */
  lemma DetachedIs(s: State, side: Side)
    ensures var p, s' := s.pad, Step(s, Detached(side));
            var half := if side.Left? then {8, 11, 13, 16, 17, 18, 19, 20, 21, 22, 23}
                        else {0, 1, 2, 3, 4, 5, 6, 7, 9, 10, 12, 14};
            && s'.Ctx(side) == s.Ctx(side).(connected := false, rumbleSent := false)
            && (if side.Left? then s'.r == s.r else s'.l == s.l)
            && s'.pad == (if side.Left? then
                            p.(buttons := p.buttons - half, connL := false, battL := 0, btL := p.btL.(typ := 0))
                          else
                            p.(buttons := p.buttons - half, connR := false, battR := 0, btR := p.btR.(typ := 0)))
  {
    hide Half;
    HalfIs();
  }

  /** A status request: if the pad on the rail is no Hori and some connected side has had no init
      rumble, every connected side counts as served; otherwise, if the rail is connected and its
      time has come, that time moves on to 15 ms from then, on 32 bits; otherwise nothing. */
  lemma StatusRequestIs(s: State, rail: Side, now: nat, later: nat)
    ensures var s' := Step(s, StatusRequest(rail, now, later));
            var c := s.Ctx(rail);
            var rumble := c.typ / 32 % 2 == 0 &&
                          ((s.l.connected && !s.l.rumbleSent) || (s.r.connected && !s.r.rumbleSent));
            var due := !rumble && c.connected && c.nextStatus <= now;
            && s'.pad == s.pad
            && s'.l.rumbleSent == (s.l.rumbleSent || (rumble && s.l.connected))
            && s'.r.rumbleSent == (s.r.rumbleSent || (rumble && s.r.connected))
            && s'.Ctx(rail).nextStatus == (if due then (later + 15) % 0x1_0000_0000 else c.nextStatus)
            && (if rail.Left? then s'.r.nextStatus == s.r.nextStatus else s'.l.nextStatus == s.l.nextStatus)
            && s'.l.(rumbleSent := false, nextStatus := 0) == s.l.(rumbleSent := false, nextStatus := 0)
            && s'.r.(rumbleSent := false, nextStatus := 0) == s.r.(rumbleSent := false, nextStatus := 0)
  {
    hide IsHori;
    TypeIs(s.Ctx(rail).typ);
  }

  lemma SettledIs(s: State, rail: Side, now: nat)
    ensures var s' := Step(s, Settled(rail, now));
            && s'.Ctx(rail) == s.Ctx(rail).(lastReceived := now) && s'.pad == s.pad
            && (if rail.Left? then s'.r == s.r else s'.l == s.l)
  {
  }

  // ---------------------------------------------------------------- what is sent

  /** What a reception makes the driver do about power: for an input report it is switched on up
      to level 3, and off from level 9, or from 7 if the system's own battery is low. */
  lemma PowerOfBytes(rail: Side, r: Reception)
    ensures var b := r.buffer;
            var heard := !r.absent && r.ready && r.len > 7 && b[0] == 0x19 && b[1] == 0x81 && b[2] == 0x03;
            var report := (b[5] == 0x92 || b[5] == 0x9A) && (b[12] == 0x00 || b[12] == 0x30);
            var level := b[14] / 16;
            OutputsOf(rail, r) ==
              if heard && report && level <= 3 then [Power(rail, true)]
              else if heard && report && level >= (if r.enough then 9 else 7) then [Power(rail, false)]
              else []
  {
    hide ButtonsOf, StickOf;
  }

  /** When a status request turns into a rumble, and when it is due at all. */
  lemma RequestWhen(s: State, rail: Side, now: nat)
    ensures RumblesFirst(s, rail) <==>
            s.Ctx(rail).typ / 32 % 2 == 0 &&
            ((s.l.connected && !s.l.rumbleSent) || (s.r.connected && !s.r.rumbleSent))
    ensures Due(s.Ctx(rail), now) <==> s.Ctx(rail).connected && s.Ctx(rail).nextStatus <= now
  {
    hide IsHori;
    TypeIs(s.Ctx(rail).typ);
  }

  /** The init rumble of two waiting sides: the right one first in each phase. */
  lemma RumbleOrder(s: State, inc: nat)
    requires inc < 0x1_0000_0000
    requires s.l.connected && !s.l.rumbleSent && s.r.connected && !s.r.rumbleSent
    ensures var i, j, k := inc % 16, (inc + 1) % 16, (inc + 2) % 16;
            RumblePackets(s, inc) ==
              [RumblePacket(Right, Enable, i), RumblePacket(Left, Enable, i), RumblePacket(Right, Play, j),
               RumblePacket(Left, Play, j), RumblePacket(Right, Disable, k), RumblePacket(Left, Disable, k)]
  {
    Consecutive(inc + 1);
    Consecutive(inc + 2);
  }

  /** The packets of a handshake in which the pad says nothing that changes the supply: the third
      initialisation packet is for pads other than Hori, and the supply stays on for a rail
      without a connected pad. */
  lemma HandshakeSends(s: State, rail: Side, r1: Reception, r2: Reception, r3: Reception)
    requires OutputsOf(rail, r1) == OutputsOf(rail, r2) == OutputsOf(rail, r3) == []
    ensures var two := [Handshake(rail)] + EventsOf(rail, r1) + EventsOf(rail, r2);
            var hori := After(s, two).Ctx(rail).typ / 32 % 2 == 1;
            var end := After(s, Attempts(s, rail, r1, r2, r3));
            HandshakeOutputs(s, rail, r1, r2, r3) ==
              [Power(rail, true), InitPacket(rail, Wake), InitPacket(rail, Hello), InitPacket(rail, GetInfo)] +
              (if hori then [] else [InitPacket(rail, Finalize)]) +
              (if end.Ctx(rail).connected then [Power(rail, false)] else [])
  {
    hide IsHori, After, EventsOf, OutputsOf;
    TypeIs(After(s, [Handshake(rail)] + EventsOf(rail, r1) + EventsOf(rail, r2)).Ctx(rail).typ);
  }

  /** What a handshake receives: all three answers, or two from a pad that is a Hori by then. */
  lemma HandshakeHears(s: State, rail: Side, r1: Reception, r2: Reception, r3: Reception)
    requires Heard(r1) && Heard(r2) && Heard(r3)
    ensures var two := [Handshake(rail), Received(rail, Parse(r1.buffer), r1.now),
                        Received(rail, Parse(r2.buffer), r2.now)];
            Attempts(s, rail, r1, r2, r3) ==
              if After(s, two).Ctx(rail).typ / 32 % 2 == 1 then two
              else two + [Received(rail, Parse(r3.buffer), r3.now)]
  {
    hide IsHori, After, Parse;
    var two := [Handshake(rail), Received(rail, Parse(r1.buffer), r1.now), Received(rail, Parse(r2.buffer), r2.now)];
    assert FirstEvents(rail, r1, r2) == two;
    TypeIs(After(s, two).Ctx(rail).typ);
  }
}
