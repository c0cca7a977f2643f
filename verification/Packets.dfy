/** Packet events, the packet records built from them, and the printed flow ids that key the flow table. */
module Packets {

  datatype PacketEvent = PacketEvent(
    timestamp: real,
    srcIp: string, srcPort: int,
    dstIp: string, dstPort: int,
    protocol: string,
    payloadSize: nat,
    tcpFlags: map<string, bool>,
    wireless: string)

  /** A packet record. It is filled once and never changed afterwards, so it is a value. */
  datatype PacketInfo = PacketInfo(
    src: string, srcPort: int,
    dest: string, destPort: int,
    protocol: string,
    timestamp: real,
    payloadBytes: nat, packetSize: nat, winBytes: nat,
    fin: bool, syn: bool, rst: bool, psh: bool, ack: bool, urg: bool,
    fwdId: string, bwdId: string)
  {
    function Tuple(): FiveTuple {
      FiveTuple(src, dest, srcPort, destPort, protocol)
    }

    /** The ids were printed from the addresses: src-dest-sport-dport-protocol and its reversal. */
    predicate Stamped() {
      fwdId == Tuple().Id() && bwdId == Tuple().Reversed().Id()
    }

    /** What an IP capture delivers: addresses without a dash and non-negative ports. */
    predicate Addressed() {
      Stamped() && Tuple().Printable()
    }

    predicate Terminates() {
      fin || rst
    }
  }

  datatype FiveTuple = FiveTuple(src: string, dest: string, srcPort: int, destPort: int, protocol: string) {
    function Reversed(): FiveTuple {
      FiveTuple(dest, src, destPort, srcPort, protocol)
    }

    function Id(): string {
      FlowId(src, dest, srcPort, destPort, protocol)
    }

    predicate Printable() {
      '-' !in src && '-' !in dest && srcPort >= 0 && destPort >= 0
    }
  }

  predicate Flag(flags: map<string, bool>, name: string) {
    name in flags && flags[name]
  }

  /** The record of an event: sizes both come from the payload, header and window are not carried over. */
  function FromEvent(e: PacketEvent): (p: PacketInfo)
    ensures p.Stamped() && p.Tuple() == FiveTuple(e.srcIp, e.dstIp, e.srcPort, e.dstPort, e.protocol)
    ensures p.timestamp == e.timestamp && p.payloadBytes == p.packetSize == e.payloadSize && p.winBytes == 0
    ensures p.fin <==> "FIN" in e.tcpFlags && e.tcpFlags["FIN"]
    ensures p.syn <==> "SYN" in e.tcpFlags && e.tcpFlags["SYN"]
    ensures p.rst <==> "RST" in e.tcpFlags && e.tcpFlags["RST"]
    ensures p.psh <==> "PSH" in e.tcpFlags && e.tcpFlags["PSH"]
    ensures p.ack <==> "ACK" in e.tcpFlags && e.tcpFlags["ACK"]
    ensures p.urg <==> "URG" in e.tcpFlags && e.tcpFlags["URG"]
  {
    PacketInfo(e.srcIp, e.srcPort, e.dstIp, e.dstPort, e.protocol, e.timestamp,
               e.payloadSize, e.payloadSize, 0,
               Flag(e.tcpFlags, "FIN"), Flag(e.tcpFlags, "SYN"), Flag(e.tcpFlags, "RST"),
               Flag(e.tcpFlags, "PSH"), Flag(e.tcpFlags, "ACK"), Flag(e.tcpFlags, "URG"),
               FlowId(e.srcIp, e.dstIp, e.srcPort, e.dstPort, e.protocol),
               FlowId(e.dstIp, e.srcIp, e.dstPort, e.srcPort, e.protocol))
  }

  // ---------------------------------------------------------------- printing

  function Digit(d: int): char
    requires 0 <= d < 10
  {
    "0123456789"[d]
  }

  function Digits(n: nat): string {
    if n < 10 then [Digit(n)] else Digits(n / 10) + [Digit(n % 10)]
  }

  /** Python's str() of an integer. */
  function Decimal(n: int): string {
    if n < 0 then "-" + Digits(-n) else Digits(n)
  }

  function Joined(field: string, rest: string): string {
    field + "-" + rest
  }

  function FlowId(src: string, dest: string, srcPort: int, destPort: int, protocol: string): string {
    Joined(src, Joined(dest, Joined(Decimal(srcPort), Joined(Decimal(destPort), protocol))))
  }

  // ----------------------------------------------------------------- reading

  datatype Cut = Cut(field: string, rest: string)

  /** Splits a text at its first dash; without one the whole text is the field. */
  function CutAtDash(s: string): Cut {
    if s == "" then Cut("", "")
    else if s[0] == '-' then Cut("", s[1..])
    else
      var c := CutAtDash(s[1..]);
      Cut([s[0]] + c.field, c.rest)
  }

  function DigitValue(c: char): int {
    c as int - '0' as int
  }

  function Value(s: string): int {
    if s == "" then 0 else 10 * Value(s[..|s| - 1]) + DigitValue(s[|s| - 1])
  }

  /** Reads a flow id back: four dash-terminated fields, the remainder is the protocol. */
  function ParseFlowId(id: string): FiveTuple {
    var a := CutAtDash(id);
    var b := CutAtDash(a.rest);
    var c := CutAtDash(b.rest);
    var d := CutAtDash(c.rest);
    FiveTuple(a.field, b.field, Value(c.field), Value(d.field), d.rest)
  }

  lemma {:induction false} DigitsReadBack(n: nat)
    ensures Value(Digits(n)) == n && '-' !in Digits(n)
  {
    if n < 10 {
      assert DigitValue(Digit(n)) == n;
      assert Value(Digits(n)) == 10 * Value("") + n;
    } else {
      DigitsReadBack(n / 10);
      var s := Digits(n);
      assert s[..|s| - 1] == Digits(n / 10);
      assert DigitValue(Digit(n % 10)) == n % 10;
    }
  }

  lemma {:induction false} CutAfterField(field: string, rest: string)
    requires '-' !in field
    ensures CutAtDash(Joined(field, rest)) == Cut(field, rest)
  {
    var s := Joined(field, rest);
    if field == "" {
      assert s[1..] == rest;
    } else {
      assert s[1..] == Joined(field[1..], rest);
      CutAfterField(field[1..], rest);
      assert [s[0]] + field[1..] == field;
    }
  }

  lemma {:induction false} CutFieldHasNoDash(s: string)
    ensures '-' !in CutAtDash(s).field
  {
    if s != "" && s[0] != '-' {
      CutFieldHasNoDash(s[1..]);
    }
  }

  /** Printing a flow id loses nothing: the id of an addressed packet parses back to its five-tuple. */
  lemma {:induction false} PrintableParsesBack(t: FiveTuple)
    requires t.Printable()
    ensures ParseFlowId(t.Id()) == t
  {
    var sport, dport := Decimal(t.srcPort), Decimal(t.destPort);
    DigitsReadBack(t.srcPort);
    DigitsReadBack(t.destPort);
    var rest3 := Joined(dport, t.protocol);
    var rest2 := Joined(sport, rest3);
    var rest1 := Joined(t.dest, rest2);
    CutAfterField(dport, t.protocol);
    CutAfterField(sport, rest3);
    CutAfterField(t.dest, rest2);
    CutAfterField(t.src, rest1);
  }

  /** A negative port starts with a dash, so what is read in its place is an empty field. */
  lemma {:induction false} NegativePortIsCut(port: int, rest: string)
    requires port < 0
    ensures Value(CutAtDash(Joined(Decimal(port), rest)).field) == 0
  {
    assert Joined(Decimal(port), rest)[0] == '-';
  }

  lemma {:induction false} ParsedPortsAreNatural(t: FiveTuple)
    requires '-' !in t.src && '-' !in t.dest && ParseFlowId(t.Id()) == t
    ensures t.srcPort >= 0 && t.destPort >= 0
  {
    var rest3 := Joined(Decimal(t.destPort), t.protocol);
    var rest2 := Joined(Decimal(t.srcPort), rest3);
    CutAfterField(t.src, Joined(t.dest, rest2));
    CutAfterField(t.dest, rest2);
    if t.srcPort < 0 {
      NegativePortIsCut(t.srcPort, rest3);
    } else {
      DigitsReadBack(t.srcPort);
      CutAfterField(Decimal(t.srcPort), rest3);
      if t.destPort < 0 {
        NegativePortIsCut(t.destPort, t.protocol);
      }
    }
  }

  /** A flow id reads back as its five-tuple exactly when no address holds a dash and no port is negative. */
  lemma {:induction false} FlowIdParsesBack(t: FiveTuple)
    ensures ParseFlowId(t.Id()) == t <==> t.Printable()
  {
    if t.Printable() {
      PrintableParsesBack(t);
    }
    if ParseFlowId(t.Id()) == t {
      CutFieldHasNoDash(t.Id());
      CutFieldHasNoDash(CutAtDash(t.Id()).rest);
      ParsedPortsAreNatural(t);
    }
  }

  /**
    Flow ids of addressed packets are injective, and one packet's id is another's reversed id
    exactly when their five-tuples are each other's reversal.
    */
  lemma {:induction false} FlowIdsIdentifyTuples(p: PacketInfo, q: PacketInfo)
    requires p.Addressed() && q.Addressed()
    ensures p.fwdId == q.fwdId <==> p.Tuple() == q.Tuple()
    ensures p.bwdId == q.bwdId <==> p.Tuple() == q.Tuple()
    ensures p.fwdId == q.bwdId <==> p.Tuple() == q.Tuple().Reversed()
  {
    FlowIdParsesBack(p.Tuple());
    FlowIdParsesBack(q.Tuple());
    FlowIdParsesBack(p.Tuple().Reversed());
    FlowIdParsesBack(q.Tuple().Reversed());
  }

  /** With a dash inside an address two different conversations print the same id. */
  lemma {:induction false} DashedAddressesCollide()
    ensures var p := FiveTuple("a-b", "c", 1, 2, "TCP");
            var q := FiveTuple("a", "b-c", 1, 2, "TCP");
            p != q && p.Id() == q.Id()
  {
    var rest := Joined(Decimal(1), Joined(Decimal(2), "TCP"));
    assert Joined("a-b", Joined("c", rest)) == Joined("a", Joined("b-c", rest));
  }
}
