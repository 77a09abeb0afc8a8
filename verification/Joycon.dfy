/** The Joy-Con driver of bdk/input/joycon.c with its static contexts, its published report
    and what it sends to the two rails.  Lines read from GPIO, received bytes and the time
    are arguments of the handlers. */
module Joycon {
  import opened Words
  import opened JoyconState

  datatype Phase = Enable | Play | Disable

  /** init_jc, init_handshake, init_get_info and init_finalize */
  datatype Init = Wake | Hello | GetInfo | Finalize

  /** What the driver sends: the three packets of an init rumble, status requests and the
      packets of a handshake, and how it switches the power of a rail. */
  datatype Output =
    | RumblePacket(side: Side, phase: Phase, id: nat)
    | StatusPacket(side: Side, hori: bool)
    | InitPacket(side: Side, init: Init)
    | Power(side: Side, on: bool)

  /** One attempt of jc_rcv_pkt: the attach line of the rail reads empty, the UART has data
      ready, the bytes received, the time, and whether the system's own battery is charged. */
  datatype Reception = Reception(absent: bool, ready: bool, buffer: Buffer, len: nat, now: nat, enough: bool)

  predicate Heard(r: Reception)
  {
    !r.absent && r.ready && r.len > 7 && r.buffer[0] == 0x19 && r.buffer[1] == 0x81 && r.buffer[2] == 0x03
  }

  function EventsOf(rail: Side, r: Reception): seq<Event>
  {
    if Heard(r) then [Received(rail, Parse(r.buffer), r.now)] else []
  }

  /** Power is switched on for a nearly empty pad and off for a full one; the lowest bit of the
      battery level says that it is charging. */
  function Charging(rail: Side, batt: nat, enough: bool): seq<Output>
  {
    if batt / 2 * 2 < 4 then [Power(rail, true)]
    else if batt > (if enough then 8 else 6) then [Power(rail, false)]
    else []
  }

  function ChargingOf(rail: Side, p: Packet, enough: bool): seq<Output>
  {
    if p.InputReport? then Charging(rail, p.input.batt, enough) else []
  }

  function OutputsOf(rail: Side, r: Reception): seq<Output>
  {
    if Heard(r) then ChargingOf(rail, Parse(r.buffer), r.enough) else []
  }

  function FirstEvents(rail: Side, r1: Reception, r2: Reception): seq<Event>
  {
    [Handshake(rail)] + EventsOf(rail, r1) + EventsOf(rail, r2)
  }

  /** The events of jc_init_conn up to the last packet: the third attempt is made unless the pad
      is a Hori by then. */
  function Attempts(s: State, rail: Side, r1: Reception, r2: Reception, r3: Reception): seq<Event>
  {
    var es := FirstEvents(rail, r1, r2);
    if IsHori(After(s, es).Ctx(rail).typ) then es else es + EventsOf(rail, r3)
  }

  function FirstOutputs(rail: Side, r1: Reception, r2: Reception): seq<Output>
  {
    [Power(rail, true), InitPacket(rail, Wake), InitPacket(rail, Hello)] + OutputsOf(rail, r1) +
    [InitPacket(rail, GetInfo)] + OutputsOf(rail, r2)
  }

  /** What jc_init_conn sends; in the end the power of a connected pad is switched off. */
  function HandshakeOutputs(s: State, rail: Side, r1: Reception, r2: Reception, r3: Reception): seq<Output>
  {
    var hori := IsHori(After(s, FirstEvents(rail, r1, r2)).Ctx(rail).typ);
    FirstOutputs(rail, r1, r2) + (if hori then [] else [InitPacket(rail, Finalize)] + OutputsOf(rail, r3)) +
    (if After(s, Attempts(s, rail, r1, r2, r3)).Ctx(rail).connected then [Power(rail, false)] else [])
  }

  function ToSide(side: Side, wanted: bool, phase: Phase, id: nat): seq<Output>
  {
    if wanted then [RumblePacket(side, phase, id)] else []
  }

  /** One phase: right side first. */
  function PhasePackets(toR: bool, toL: bool, phase: Phase, id: nat): seq<Output>
  {
    ToSide(Right, toR, phase, id) + ToSide(Left, toL, phase, id)
  }

  /** The packet number advances from phase to phase, whether or not it is used. */
  function RumblePackets(s: State, inc: nat): seq<Output>
  {
    var r, l := WantsRumble(s.r), WantsRumble(s.l);
    PhasePackets(r, l, Enable, inc % 16) +
    PhasePackets(r, l, Play, (inc + 1) % U32 % 16) +
    PhasePackets(r, l, Disable, (inc + 2) % U32 % 16)
  }

  /** The packets addressed to one side, in order. */
  function Addressed(out: seq<Output>, side: Side): seq<Output>
  {
    if out == [] then []
    else Addressed(out[..|out| - 1], side) + if out[|out| - 1].side == side then [out[|out| - 1]] else []
  }

  lemma {:induction false} AddressedConcat(xs: seq<Output>, ys: seq<Output>, side: Side)
    ensures Addressed(xs + ys, side) == Addressed(xs, side) + Addressed(ys, side)
    decreases |ys|
  {
    if ys == [] {
      assert xs + ys == xs;
    } else {
      var n := |ys| - 1;
      assert (xs + ys)[..|xs + ys| - 1] == xs + ys[..n];
      AddressedConcat(xs, ys[..n], side);
      var t := if ys[n].side == side then [ys[n]] else [];
      assert Addressed(xs + ys, side) == (Addressed(xs, side) + Addressed(ys[..n], side)) + t;
    }
  }

  lemma AddressedToSide(to: Side, wanted: bool, phase: Phase, id: nat, side: Side)
    ensures Addressed(ToSide(to, wanted, phase, id), side) == if to == side then ToSide(to, wanted, phase, id) else []
  {
  }

  lemma AddressedPhase(toR: bool, toL: bool, phase: Phase, id: nat, side: Side)
    ensures Addressed(PhasePackets(toR, toL, phase, id), side) ==
        ToSide(side, if side.Left? then toL else toR, phase, id)
  {
    AddressedConcat(ToSide(Right, toR, phase, id), ToSide(Left, toL, phase, id), side);
    AddressedToSide(Right, toR, phase, id, side);
    AddressedToSide(Left, toL, phase, id, side);
  }

  /** A side that wants its rumble gets it enabled, played and disabled, in this order and
      under three consecutive packet numbers modulo 16; the other side's packets in between
      change nothing about that.  A side that does not want it gets nothing. */
  lemma RumblePerSide(s: State, inc: nat, side: Side)
    requires inc < U32
    ensures Addressed(RumblePackets(s, inc), side) ==
      if WantsRumble(s.Ctx(side)) then
        [RumblePacket(side, Enable, inc % 16), RumblePacket(side, Play, (inc + 1) % 16),
          RumblePacket(side, Disable, (inc + 2) % 16)]
      else []
  {
    AddressedThree(WantsRumble(s.r), WantsRumble(s.l), inc % 16, (inc + 1) % U32 % 16, (inc + 2) % U32 % 16, side);
    Consecutive(inc + 1);
    Consecutive(inc + 2);
  }

  lemma TwoOn(id: nat)
    requires id < U32
    ensures ((id + 1) % U32 + 1) % U32 == (id + 2) % U32
  {
  }

  lemma Consecutive(id: nat)
    ensures id % U32 % 16 == id % 16
  {
  }

  lemma AddressedThree(r: bool, l: bool, i: nat, j: nat, k: nat, side: Side)
    ensures var w := if side.Left? then l else r;
            Addressed(PhasePackets(r, l, Enable, i) + PhasePackets(r, l, Play, j) +
                      PhasePackets(r, l, Disable, k), side)
            == ToSide(side, w, Enable, i) + ToSide(side, w, Play, j) + ToSide(side, w, Disable, k)
  {
    var a, b, c := PhasePackets(r, l, Enable, i), PhasePackets(r, l, Play, j), PhasePackets(r, l, Disable, k);
    AddressedConcat(a + b, c, side);
    AddressedConcat(a, b, side);
    AddressedPhase(r, l, Enable, i, side);
    AddressedPhase(r, l, Play, j, side);
    AddressedPhase(r, l, Disable, k, side);
  }

  /** How many init-rumble sequences the output has for one side. */
  function Enables(out: seq<Output>, side: Side): nat
  {
    if out == [] then 0
    else
      var o := out[|out| - 1];
      Enables(out[..|out| - 1], side) + if o.RumblePacket? && o.side == side && o.phase == Enable then 1 else 0
  }

  lemma {:induction false} EnablesConcat(xs: seq<Output>, ys: seq<Output>, side: Side)
    ensures Enables(xs + ys, side) == Enables(xs, side) + Enables(ys, side)
    decreases |ys|
  {
    if ys == [] {
      assert xs + ys == xs;
    } else {
      var n := |ys| - 1;
      assert (xs + ys)[..|xs + ys| - 1] == xs + ys[..n];
      EnablesConcat(xs, ys[..n], side);
    }
  }

  lemma EnablesToSide(to: Side, wanted: bool, phase: Phase, id: nat, side: Side)
    ensures Enables(ToSide(to, wanted, phase, id), side) == if wanted && to == side && phase == Enable then 1 else 0
  {
    var out := ToSide(to, wanted, phase, id);
    assert out != [] ==> out[..|out| - 1] == [];
  }

  lemma EnablesPhase(toR: bool, toL: bool, phase: Phase, id: nat, side: Side)
    ensures Enables(PhasePackets(toR, toL, phase, id), side) ==
      if phase == Enable && (if side.Left? then toL else toR) then 1 else 0
  {
    EnablesConcat(ToSide(Right, toR, phase, id), ToSide(Left, toL, phase, id), side);
    EnablesToSide(Right, toR, phase, id, side);
    EnablesToSide(Left, toL, phase, id, side);
  }

  lemma EnablesOfRumble(s: State, inc: nat, side: Side)
    ensures Enables(RumblePackets(s, inc), side) == if WantsRumble(s.Ctx(side)) then 1 else 0
  {
    var r, l := WantsRumble(s.r), WantsRumble(s.l);
    var a, b, c := PhasePackets(r, l, Enable, inc % 16), PhasePackets(r, l, Play, (inc + 1) % U32 % 16),
      PhasePackets(r, l, Disable, (inc + 2) % U32 % 16);
    EnablesConcat(a + b, c, side);
    EnablesConcat(a, b, side);
    EnablesPhase(r, l, Enable, inc % 16, side);
    EnablesPhase(r, l, Play, (inc + 1) % U32 % 16, side);
    EnablesPhase(r, l, Disable, (inc + 2) % U32 % 16, side);
  }

  /** The rumble packets that went out are those that the history of events tells of. */
  ghost predicate Told(sent: seq<Output>, es: seq<Event>)
  {
    forall side {:trigger Enables(sent, side)} :: Enables(sent, side) == Rumbles(es, side)
  }

  lemma ToldRumble(sent: seq<Output>, es: seq<Event>, es': seq<Event>, s: State, inc: nat)
    requires Told(sent, es)
    requires forall side :: Rumbles(es', side) == Rumbles(es, side) + if WantsRumble(s.Ctx(side)) then 1 else 0
    ensures Told(sent + RumblePackets(s, inc), es')
  {
    forall side
      ensures Enables(sent + RumblePackets(s, inc), side) == Rumbles(es', side)
    {
      EnablesConcat(sent, RumblePackets(s, inc), side);
      EnablesOfRumble(s, inc, side);
    }
  }

  lemma ToldSame(sent: seq<Output>, es: seq<Event>, es': seq<Event>)
    requires Told(sent, es) && forall side :: Rumbles(es', side) == Rumbles(es, side)
    ensures Told(sent, es')
  {
    forall side
      ensures Enables(sent, side) == Rumbles(es', side)
    {
      assert Enables(sent, side) == Rumbles(es, side);
    }
  }

  /** An event other than a status request sends no rumble. */
  lemma ToldSnoc(sent: seq<Output>, es: seq<Event>, e: Event)
    requires Told(sent, es) && !e.StatusRequest?
    ensures Told(sent, es + [e]) && Run(es + [e]) == Step(Run(es), e)
  {
    RunSnoc(es, e);
    ToldSame(sent, es, es + [e]);
  }

  predicate Quiet(out: seq<Output>)
  {
    forall i :: 0 <= i < |out| ==> !out[i].RumblePacket?
  }

  lemma {:induction false} QuietEnables(out: seq<Output>, side: Side)
    requires Quiet(out)
    ensures Enables(out, side) == 0
    decreases |out|
  {
    if out != [] {
      QuietEnables(out[..|out| - 1], side);
    }
  }

  /** What else goes out does not count. */
  lemma ToldQuiet(sent: seq<Output>, more: seq<Output>, es: seq<Event>)
    requires Told(sent, es) && Quiet(more)
    ensures Told(sent + more, es)
  {
    forall side
      ensures Enables(sent + more, side) == Rumbles(es, side)
    {
      EnablesConcat(sent, more, side);
      QuietEnables(more, side);
    }
  }

  class Driver {
    var jcL: Context
    var jcR: Context
    var pad: Pad
    var hidPktInc: nat
    var sent: seq<Output>
    ghost var history: seq<Event>

    function Now(): State
      reads this
    {
      State(jcL, jcR, pad)
    }

    /** The state is the one that the history of events leads to, and so are the rumbles sent. */
    ghost predicate Valid()
      reads this
    {
      Now() == Run(history) && hidPktInc < U32 && Told(sent, history)
    }

    /** The init rumble has gone to a side at most once more often than the side was detached. */
    lemma RumbleOncePerAttach(side: Side)
      requires Valid()
      ensures Enables(sent, side) <= Detaches(history, side) + 1
      ensures !Now().Ctx(side).rumbleSent ==> Enables(sent, side) <= Detaches(history, side)
    {
      ConnectionSafety(history, side);
    }

    constructor ()
      ensures Valid() && history == [] && sent == [] && hidPktInc == 0
      ensures jcL == jcR == Context(0, [0, 0, 0, 0, 0, 0], false, false, 0, 0)
      ensures pad.buttons == {} && !pad.connL && !pad.connR && pad.battL == pad.battR == 0
      ensures pad.lstick == pad.rstick == Stick(0, 0) && pad.btL.typ == pad.btR.typ == 0
    {
      jcL, jcR, pad := START.l, START.r, START.pad;
      hidPktInc := 0;
      sent := [];
      history := [];
    }

    /** The input-report case of jc_parse_wired_hid. */
    method TakeInput(rail: Side, input: Input)
      modifies this`pad
      ensures Now() == Report(old(Now()), rail, input)
    {
      var typ := if rail.Left? then jcL.typ else jcR.typ;
      if HasL(typ) {
        pad := pad.(buttons := pad.buttons - Half(Left));
        pad := pad.(buttons := pad.buttons + (input.buttons * Half(Left)));
        pad := pad.(lstick := input.lstick);
        pad := pad.(battL := input.batt);
      } else if HasR(typ) {
        pad := pad.(buttons := pad.buttons - Half(Right));
        pad := pad.(buttons := pad.buttons + (input.buttons * Half(Right)));
        pad := pad.(rstick := input.rstick);
        pad := pad.(battR := input.batt);
      }
      pad := pad.(connL := jcL.connected);
      pad := pad.(connR := jcR.connected);
    }

    /** jc_charging_decider; `enough` says that the system's own battery is above 4 V. */
    method ChargingDecider(rail: Side, batt: nat, enough: bool)
      modifies this`sent
      ensures sent == old(sent) + Charging(rail, batt, enough)
    {
      if batt / 2 * 2 < 4 {
        sent := sent + [Power(rail, true)];
      } else if batt > (if enough then 8 else 6) {
        sent := sent + [Power(rail, false)];
      }
    }

    /** The pairing case of jc_parse_wired_hid. */
    method TakePairing(rail: Side, host: seq<nat>, key: seq<nat>)
      modifies this`pad
      ensures Now() == Pair(old(Now()), rail, host, key)
    {
      var jc := if rail.Left? then jcL else jcR;
      var ltk := ReverseBytes(key);
      var bt := Pairing(jc.typ, jc.mac, host, ltk);
      if HasL(jc.typ) {
        pad := pad.(btL := bt);
      } else {
        pad := pad.(btR := bt);
      }
    }

    /** jc_parse_wired_hid */
    method ParseWiredHid(rail: Side, p: Packet, now: nat, enough: bool)
      requires p.IsHid()
      modifies this`jcL, this`jcR, this`pad, this`sent
      ensures Now() == Hid(old(Now()), rail, p, now)
      ensures sent == old(sent) + ChargingOf(rail, p, enough)
    {
      if p.InputReport? {
        TakeInput(rail, p.input);
        ChargingDecider(rail, p.input.batt, enough);
      } else if p.PairingReply? {
        TakePairing(rail, p.host, p.key);
      }
      if rail.Left? {
        jcL := jcL.(lastReceived := now);
      } else {
        jcR := jcR.(lastReceived := now);
      }
    }

    /** jc_parse_wired_init */
    method ParseWiredInit(rail: Side, typ: nat, address: seq<nat>)
      modifies this`jcL, this`jcR
      ensures Now() == InitReply(old(Now()), rail, typ, address)
    {
      var mac := ReverseBytes(address);
      if rail.Left? {
        jcL := jcL.(mac := mac);
        jcL := jcL.(typ := typ);
        jcL := jcL.(connected := true);
      } else {
        jcR := jcR.(mac := mac);
        jcR := jcR.(typ := typ);
        jcR := jcR.(connected := true);
      }
    }

    /** The loop over the address, from its last byte down. */
    method ReverseBytes(address: seq<nat>) returns (mac: seq<nat>)
      ensures mac == Reversed(address)
    {
      mac := [];
      for i := |address| downto 0
        invariant mac == Reversed(address)[..|address| - i]
      {
        mac := mac + [address[i]];
      }
    }

    /** jc_uart_pkt_parse */
    method UartPktParse(rail: Side, p: Packet, now: nat, enough: bool)
      modifies this`jcL, this`jcR, this`pad, this`sent
      ensures Now() == Step(old(Now()), Received(rail, p, now))
      ensures sent == old(sent) + ChargingOf(rail, p, enough)
    {
      if p.IsHid() {
        ParseWiredHid(rail, p, now, enough);
      } else if p.TypeReply? {
        ParseWiredInit(rail, p.typ, p.address);
      }
    }

    method TakePacket(rail: Side, p: Packet, now: nat, enough: bool)
      requires Valid()
      modifies this`jcL, this`jcR, this`pad, this`sent, this`history
      ensures Valid() && history == old(history) + [Received(rail, p, now)]
      ensures Now() == Step(old(Now()), Received(rail, p, now))
      ensures sent == old(sent) + ChargingOf(rail, p, enough)
    {
      hide Run, Told, Step, Parse;
      ToldSnoc(sent, history, Received(rail, p, now));
      ToldQuiet(sent, ChargingOf(rail, p, enough), history + [Received(rail, p, now)]);
      UartPktParse(rail, p, now, enough);
      history := history + [Received(rail, p, now)];
    }

    /** jc_rcv_pkt */
    method RcvPkt(rail: Side, r: Reception)
      requires Valid()
      modifies this`jcL, this`jcR, this`pad, this`sent, this`history
      ensures Valid() && history == old(history) + EventsOf(rail, r) && sent == old(sent) + OutputsOf(rail, r)
      ensures var b := r.buffer;
              if !r.absent && r.ready && r.len > 7 && b[0] == 0x19 && b[1] == 0x81 && b[2] == 0x03 then
                Now() == Step(old(Now()), Received(rail, Parse(b), r.now))
              else
                Now() == old(Now()) && sent == old(sent) && history == old(history)
    {
      if r.absent || !r.ready {
        return;
      }
      if r.len > 7 && r.buffer[0] == 0x19 && r.buffer[1] == 0x81 && r.buffer[2] == 0x03 {
        TakePacket(rail, Parse(r.buffer), r.now, r.enough);
      }
    }

    /** jc_hid_pkt_id_incr */
    method NextId() returns (id: nat)
      modifies this`hidPktInc
      ensures id == old(hidPktInc) % 16 && hidPktInc == (old(hidPktInc) + 1) % U32
    {
      id := hidPktInc % 16;
      hidPktInc := (hidPktInc + 1) % U32;
    }

    /** One phase of the rumble branch of jc_send_hid_cmd. */
    method SendPhase(toR: bool, toL: bool, phase: Phase)
      modifies this`hidPktInc, this`sent
      ensures hidPktInc == (old(hidPktInc) + 1) % U32
      ensures sent == old(sent) + PhasePackets(toR, toL, phase, old(hidPktInc) % 16)
    {
      var id := NextId();
      if toR {
        sent := sent + [RumblePacket(Right, phase, id)];
      }
      if toL {
        sent := sent + [RumblePacket(Left, phase, id)];
      }
    }

    /** The rumble branch of jc_send_hid_cmd. */
    method SendAll(toR: bool, toL: bool)
      requires hidPktInc < U32
      modifies this`hidPktInc, this`sent
      ensures hidPktInc == (old(hidPktInc) + 3) % U32
      ensures sent == old(sent) + (PhasePackets(toR, toL, Enable, old(hidPktInc) % 16) +
                                   PhasePackets(toR, toL, Play, (old(hidPktInc) + 1) % U32 % 16) +
                                   PhasePackets(toR, toL, Disable, (old(hidPktInc) + 2) % U32 % 16))
    {
      hide PhasePackets;
      TwoOn(hidPktInc);
      SendPhase(toR, toL, Enable);
      SendPhase(toR, toL, Play);
      SendPhase(toR, toL, Disable);
    }

    /** jc_send_init_rumble */
    method SendInitRumble() returns (did: bool)
      requires hidPktInc < U32
      modifies this`jcL, this`jcR, this`hidPktInc, this`sent
      ensures Now() == Rumble(old(Now()))
      ensures hidPktInc == if did then (old(hidPktInc) + 3) % U32 else old(hidPktInc)
      ensures did <==> WantsRumble(old(jcR)) || WantsRumble(old(jcL))
      ensures sent == old(sent) + RumblePackets(old(Now()), old(hidPktInc))
      ensures !did ==> sent == old(sent)
    {
      did := false;
      if (jcR.connected && !jcR.rumbleSent) || (jcL.connected && !jcL.rumbleSent) {
        var toR := jcR.connected && !jcR.rumbleSent;
        var toL := jcL.connected && !jcL.rumbleSent;
        SendAll(toR, toL);
        if jcL.connected {
          jcL := jcL.(rumbleSent := true);
        }
        if jcR.connected {
          jcR := jcR.(rumbleSent := true);
        }
        did := true;
      }
    }

    /** Sends what is no rumble. */
    method Send(more: seq<Output>)
      requires Valid() && Quiet(more)
      modifies this`sent
      ensures Valid() && sent == old(sent) + more
    {
      ToldQuiet(sent, more, history);
      sent := sent + more;
    }

    /** jc_req_nx_pad_status */
    method ReqNxPadStatus(rail: Side, now: nat, later: nat)
      requires Valid()
      modifies this`jcL, this`jcR, this`hidPktInc, this`sent, this`history
      ensures Valid() && history == old(history) + [StatusRequest(rail, now, later)]
      ensures var s := old(Now());
              sent == old(sent) +
                if RumblesFirst(s, rail) then RumblePackets(s, old(hidPktInc))
                else if Due(s.Ctx(rail), now) then [StatusPacket(rail, IsHori(s.Ctx(rail).typ))]
                else []
      ensures hidPktInc == if RumblesFirst(old(Now()), rail) then (old(hidPktInc) + 3) % U32 else old(hidPktInc)
    {
      hide Run, Told, IsHori, RumblePackets;
      RunSnoc(history, StatusRequest(rail, now, later));
      history := history + [StatusRequest(rail, now, later)];
      var jc := if rail.Left? then jcL else jcR;
      var isNxpad := !IsHori(jc.typ);
      if isNxpad {
        var sentRumble := SendInitRumble();
        if sentRumble {
          ToldRumble(old(sent), old(history), history, old(Now()), old(hidPktInc));
          return;
        }
      }
      assert sent == old(sent);
      ToldSame(sent, old(history), history);
      if jc.nextStatus > now || !jc.connected {
        return;
      }
      ToldQuiet(sent, [StatusPacket(rail, !isNxpad)], history);
      sent := sent + [StatusPacket(rail, !isNxpad)];
      if rail.Left? {
        jcL := jcL.(nextStatus := (later + 15) % U32);
      } else {
        jcR := jcR.(nextStatus := (later + 15) % U32);
      }
    }

    /** jc_init_conn: a rail that has been silent for more than a second, by the 32-bit clock, is
        initialised anew.  r1 to r3 are what the three attempts to receive find, `done` is the
        time at the end. */
    method InitConn(rail: Side, now: nat, r1: Reception, r2: Reception, r3: Reception, done: nat)
      requires Valid()
      modifies this`jcL, this`jcR, this`pad, this`sent, this`history
      ensures Valid()
      ensures var s := old(Now());
              if (now - s.Ctx(rail).lastReceived) % U32 > 1000 then
                && history == old(history) + Attempts(s, rail, r1, r2, r3) + [Settled(rail, done)]
                && sent == old(sent) + HandshakeOutputs(s, rail, r1, r2, r3)
              else
                history == old(history) && sent == old(sent) && Now() == s
    {
      hide Run, Step, After, FirstEvents, EventsOf, OutputsOf, Told, Clear, IsHori;
      var last := if rail.Left? then jcL.lastReceived else jcR.lastReceived;
      if (now - last) % U32 > 1000 {
        AllAttempts(rail, r1, r2, r3);
        ghost var es := Attempts(old(Now()), rail, r1, r2, r3);
        RunAfter(old(history), es);
        SettleAt(rail, done);
        var jc := if rail.Left? then jcL else jcR;
        if jc.connected {
          Send([Power(rail, false)]);
        }
      }
    }

    /** Sends packets and hears what comes back. */
    method Exchange(rail: Side, more: seq<Output>, r: Reception)
      requires Valid() && Quiet(more)
      modifies this`jcL, this`jcR, this`pad, this`sent, this`history
      ensures Valid() && history == old(history) + EventsOf(rail, r)
      ensures sent == old(sent) + more + OutputsOf(rail, r)
    {
      hide Run, Step, EventsOf, OutputsOf, Told, Parse;
      Send(more);
      RcvPkt(rail, r);
    }

    /** jc_init_conn up to the last attempt to receive. */
    method AllAttempts(rail: Side, r1: Reception, r2: Reception, r3: Reception)
      requires Valid()
      modifies this`jcL, this`jcR, this`pad, this`sent, this`history
      ensures Valid() && history == old(history) + Attempts(old(Now()), rail, r1, r2, r3)
      ensures sent == old(sent) + FirstOutputs(rail, r1, r2) +
          if IsHori(After(old(Now()), FirstEvents(rail, r1, r2)).Ctx(rail).typ) then []
          else [InitPacket(rail, Finalize)] + OutputsOf(rail, r3)
    {
      hide Run, Step, After, EventsOf, OutputsOf, Told, Clear, IsHori, Parse, Enables, Rumbles;
      FirstAttempts(rail, r1, r2);
      RunAfter(old(history), FirstEvents(rail, r1, r2));
      var jc := if rail.Left? then jcL else jcR;
      if !IsHori(jc.typ) {
        Exchange(rail, [InitPacket(rail, Finalize)], r3);
      }
    }

    /** jc_init_conn up to the second attempt to receive. */
    method FirstAttempts(rail: Side, r1: Reception, r2: Reception)
      requires Valid()
      modifies this`jcL, this`jcR, this`pad, this`sent, this`history
      ensures Valid() && history == old(history) + FirstEvents(rail, r1, r2)
      ensures sent == old(sent) + FirstOutputs(rail, r1, r2)
    {
      hide Run, Step, After, EventsOf, OutputsOf, Told, Clear, IsHori, Parse, Enables, Rumbles;
      Send([Power(rail, true)]);
      StartHandshake(rail);
      Exchange(rail, [InitPacket(rail, Wake), InitPacket(rail, Hello)], r1);
      Exchange(rail, [InitPacket(rail, GetInfo)], r2);
    }

    method SettleAt(rail: Side, done: nat)
      requires Valid()
      modifies this`jcL, this`jcR, this`history
      ensures Valid() && history == old(history) + [Settled(rail, done)]
      ensures Now() == Settle(old(Now()), rail, done)
    {
      hide Run, Told;
      ToldSnoc(sent, history, Settled(rail, done));
      if rail.Left? {
        jcL := jcL.(lastReceived := done);
      } else {
        jcR := jcR.(lastReceived := done);
      }
      history := history + [Settled(rail, done)];
    }

    method StartHandshake(rail: Side)
      requires Valid()
      modifies this`pad, this`history
      ensures Valid() && history == old(history) + [Handshake(rail)]
    {
      hide Run, Told, Half;
      if rail.Right? {
        pad := pad.(buttons := pad.buttons - Half(Right));
        pad := pad.(connR := false);
      } else {
        pad := pad.(buttons := pad.buttons - Half(Left));
        pad := pad.(connL := false);
      }
      assert Now() == Step(old(Now()), Handshake(rail));
      ToldSnoc(sent, history, Handshake(rail));
      history := history + [Handshake(rail)];
    }

    method LeftGone()
      requires Valid()
      modifies this`jcL, this`pad, this`hidPktInc, this`sent, this`history
      ensures Valid() && history == old(history) + [Detached(Left)] && hidPktInc == 0
      ensures sent == old(sent) + [Power(Left, false)]
    {
      hide Run, Told, Half;
      Send([Power(Left, false)]);
      hidPktInc := 0;
      jcL := jcL.(connected := false);
      jcL := jcL.(rumbleSent := false);
      pad := pad.(buttons := pad.buttons - Half(Left));
      pad := pad.(connL := false);
      pad := pad.(battL := 0);
      pad := pad.(btL := pad.btL.(typ := 0));
      assert Now() == Step(old(Now()), Detached(Left));
      ToldSnoc(sent, history, Detached(Left));
      history := history + [Detached(Left)];
    }

    method RightGone()
      requires Valid()
      modifies this`jcR, this`pad, this`hidPktInc, this`sent, this`history
      ensures Valid() && history == old(history) + [Detached(Right)] && hidPktInc == 0
      ensures sent == old(sent) + [Power(Right, false)]
    {
      hide Run, Told, Half;
      Send([Power(Right, false)]);
      hidPktInc := 0;
      jcR := jcR.(connected := false);
      jcR := jcR.(rumbleSent := false);
      pad := pad.(buttons := pad.buttons - Half(Right));
      pad := pad.(connR := false);
      pad := pad.(battR := 0);
      pad := pad.(btR := pad.btR.(typ := 0));
      assert Now() == Step(old(Now()), Detached(Right));
      ToldSnoc(sent, history, Detached(Right));
      history := history + [Detached(Right)];
    }

    /** jc_conn_check */
    method ConnCheck(leftGone: bool, rightGone: bool)
      requires Valid()
      modifies this`jcL, this`jcR, this`pad, this`hidPktInc, this`sent, this`history
      ensures Valid()
      ensures sent == old(sent) + (if leftGone then [Power(Left, false)] else []) +
          (if rightGone then [Power(Right, false)] else [])
      ensures history == old(history) + (if leftGone then [Detached(Left)] else []) +
          (if rightGone then [Detached(Right)] else [])
      ensures hidPktInc == if leftGone || rightGone then 0 else old(hidPktInc)
    {
      if leftGone {
        LeftGone();
      }
      if rightGone {
        RightGone();
      }
    }
  }

  lemma RunSnoc(es: seq<Event>, e: Event)
    ensures Run(es + [e]) == Step(Run(es), e)
    ensures forall side :: Rumbles(es + [e], side) == Rumbles(es, side) + if Serves(Run(es), e, side) then 1 else 0
  {
  }

  /** Running on from where a history leads. */
  lemma {:induction false} RunAfter(es: seq<Event>, more: seq<Event>)
    ensures Run(es + more) == After(Run(es), more)
    decreases |more|
  {
    if more == [] {
      assert es + more == es;
    } else {
      assert (es + more)[..|es + more| - 1] == es + more[..|more| - 1];
      RunAfter(es, more[..|more| - 1]);
    }
  }
}
