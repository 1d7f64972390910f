/** What local delivery hands up the stack, against what the sender's transport handed down. */
module Delivery {
  import opened Machine
  import opened Wire
  import opened Handlers
  import opened Networks
  import Decisions
  import PacketPaths

  /** What the transport at the source sent: its header and the payload. */
  function Sent(p: Packet): seq<byte> {
    p.outer.bits + p.payload
  }

  /** What is left of transport header and data header once 36 bytes are gone from the front. */
  function Remnant(p: Packet): seq<byte> {
    DataRoundTrip(p.data);
    (p.outer.bits + DataWire(p.data))[DATA_SIZE..]
  }

  /** What is handed up is intact exactly when that remnant happens to equal the transport header. */
  lemma HandedUpIntactIff(p: Packet)
    ensures HandedUp(p) == Sent(p) <==> Remnant(p) == p.outer.bits
  {
    hide DataWire;
    DataRoundTrip(p.data);
    var front := p.outer.bits + DataWire(p.data);
    assert OnWire(p) == front + p.payload;
    assert HandedUp(p) == front[DATA_SIZE..] + p.payload;
    assert (front[DATA_SIZE..] + p.payload)[..|p.outer.bits|] == front[DATA_SIZE..];
    assert (p.outer.bits + p.payload)[..|p.outer.bits|] == p.outer.bits;
  }

  lemma {:induction false} LowBytes(v: nat, n: nat, m: nat)
    requires m <= n
    ensures BigEndian(v, n)[n - m..] == BigEndian(v, m)
  {
    if m > 0 {
      LowBytes(v / 256, n - 1, m - 1);
      assert BigEndian(v, n)[n - m..] == BigEndian(v / 256, n - 1)[n - m..] + [v % 256];
    } else {
      assert BigEndian(v, n)[n..] == [];
    }
  }

  /** The last eight bytes of a data header: the low half of its uid, its hop count, its error field. */
  lemma HeaderTail(d: DataHeader)
    ensures |DataWire(d)| == DATA_SIZE
    ensures DataWire(d)[28..] == BigEndian(d.uid, 4) + BigEndian(d.hop, 2) + BigEndian(d.error, 2)
  {
    hide BigEndian;
    DataRoundTrip(d);
    LowBytes(d.uid, 8, 4);
    var fs := DataFields(d);
    assert fs[..14][..13] == fs[..13] && fs[..13][..12] == fs[..12];
    var first := Encode(fs[..12]);
    assert Encode(fs[..13]) == first + BigEndian(d.uid, 8);
    assert Encode(fs[..14]) == Encode(fs[..13]) + BigEndian(d.hop, 2);
    assert DataWire(d) == Encode(fs[..14]) + BigEndian(d.error, 2);
    assert |first| == 24;
    assert Encode(fs[..13])[28..] == BigEndian(d.uid, 8)[4..];
  }

  lemma HandedUpUdp(p: Packet)
    requires |p.outer.bits| == 8
    ensures |HandedUp(p)| >= 8
    ensures HandedUp(p)[..8] == BigEndian(p.data.uid, 4) + BigEndian(p.data.hop, 2) + BigEndian(p.data.error, 2)
    ensures HandedUp(p) == Sent(p) <==>
            p.outer.bits == BigEndian(p.data.uid, 4) + BigEndian(p.data.hop, 2) + BigEndian(p.data.error, 2)
  {
    hide BigEndian, DataWire;
    HeaderTail(p.data);
    HandedUpIntactIff(p);
    var front := p.outer.bits + DataWire(p.data);
    assert Remnant(p) == front[DATA_SIZE..] == DataWire(p.data)[28..];
    assert HandedUp(p) == Remnant(p) + p.payload;
  }

  // ---------------------------------------------------------------- the arrival at the destination

  /**
   * A packet that arrives at its destination is delivered; what is delivered is what the transport sent exactly when the
   * remnant, which stands where the transport header should, happens to equal it.
   */
  lemma DeliveredIntactIff(n: NodeState, p: Packet, env: Env, now: Time)
    requires p.dst == n.addr && p.src != n.addr
    ensures var arrival := RouteInput(n, p, env, now).arrival;
            && arrival.Delivered?
            && (arrival.bytes == Sent(p) <==> Remnant(p) == p.outer.bits)
  {
    hide HandedUp, Remnant, Forwarding;
    Decisions.RouteInputDecides(n, p, env, now);
    HandedUpIntactIff(p);
  }

  /**
   * With the 8-byte UDP header in front, the receiver's transport is handed a header whose ports are the low half of
   * the packet's uid, whose length is the hop count, and whose checksum is the error field.
   */
  lemma UdpIntactIff(n: NodeState, p: Packet, env: Env, now: Time)
    requires p.dst == n.addr && p.src != n.addr && |p.outer.bits| == 8
    ensures var arrival := RouteInput(n, p, env, now).arrival;
            var seen := BigEndian(p.data.uid, 4) + BigEndian(p.data.hop, 2) + BigEndian(p.data.error, 2);
            && arrival.Delivered? && |arrival.bytes| >= 8 && arrival.bytes[..8] == seen
            && (arrival.bytes == Sent(p) <==> p.outer.bits == seen)
  {
    hide HandedUp, Forwarding, BigEndian;
    Decisions.RouteInputDecides(n, p, env, now);
    HandedUpUdp(p);
  }

  /**
   * In no run does a UDP packet with a length field above 10 reach its destination intact; one that holds a data header
   * is at least 44 bytes long.
   */
  lemma NeverIntact(s: Net, steps: seq<Step>, c: DataCopy, env: Env)
    requires Init(s) && Runs(s, steps) && c in Reached(s, steps).data
    requires c.to in Reached(s, steps).nodes && c.packet.dst == Reached(s, steps).nodes[c.to].addr
    requires c.packet.src != c.packet.dst
    requires |c.packet.outer.bits| == 8 && Value(c.packet.outer.bits[4..6]) > 10
    ensures var s' := Reached(s, steps);
            var arrival := RouteInput(s'.nodes[c.to], c.packet, env, s'.now).arrival;
            arrival.Delivered? && arrival.bytes != Sent(c.packet)
  {
    hide *;
    PacketPaths.TransmissionsBounded(s, steps, c);
    UdpIntactIff(Reached(s, steps).nodes[c.to], c.packet, env, Reached(s, steps).now);
    LengthIsHop(c.packet);
  }

  lemma LengthIsHop(p: Packet)
    requires |p.outer.bits| == 8
    ensures p.outer.bits == BigEndian(p.data.uid, 4) + BigEndian(p.data.hop, 2) + BigEndian(p.data.error, 2) ==>
              Value(p.outer.bits[4..6]) == p.data.hop
  {
    hide BigEndian, Value;
    Widths();
    ValueOfBigEndian(p.data.hop, 2);
    var front, hop, back := BigEndian(p.data.uid, 4), BigEndian(p.data.hop, 2), BigEndian(p.data.error, 2);
    assert (front + hop + back)[4..6] == hop;
  }
}
