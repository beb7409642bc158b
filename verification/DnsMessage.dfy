/**
 * The DNS question parser and the blocked reply (RFC 1035, sections 3.1, 4.1.1 and
 * 4.1.2) of the agent's local proxy.
 */
module DnsMessage {
  import opened Common
  import opened Text
  import DomainNames

  type Octets = seq<bv8>

  datatype DnsError = QuestionMissing | InvalidLabel | InvalidQuestion | InvalidName | InvalidPacket

  const HEADER := 12

  /** Encoding.ASCII: octets outside ASCII read as a question mark. */
  function AsciiChar(b: bv8): char {
    if b < 0x80 then (b as int) as char else '?'
  }

  /** So no such octet can pass for a character of a host name. */
  lemma ForeignOctet(b: bv8)
    requires b >= 0x80
    ensures var c := AsciiChar(b); !('a' <= c <= 'z') && !('A' <= c <= 'Z') && !('0' <= c <= '9') && c != '-' && c != '.' && c != '_'
  {
  }

  function AsciiText(bytes: Octets): (r: string)
    ensures |r| == |bytes|
  {
    seq(|bytes|, i requires 0 <= i < |bytes| => AsciiChar(bytes[i]))
  }

  /** The labels up to the root label, and what follows it. */
  datatype Question = Malformed | Labels(labels: seq<Octets>, rest: Octets)

  /** An octet that cannot begin a label: a compression pointer, or a length beyond 63. */
  predicate BadLength(b: bv8) {
    b & 0xc0 != 0 || b > 63
  }

  function ReadLabels(bytes: Octets): Question
    decreases |bytes|
  {
    if bytes == [] then Labels([], [])
    else if bytes[0] == 0 then Labels([], bytes[1..])
    else
      var n := bytes[0] as int;
      if BadLength(bytes[0]) || 1 + n > |bytes| then Malformed
      else
        match ReadLabels(bytes[1 + n..])
        case Malformed => Malformed
        case Labels(labels, rest) => Labels([bytes[1..1 + n]] + labels, rest)
  }

  function Names(labels: seq<Octets>): (r: seq<string>)
    ensures |r| == |labels|
  {
    seq(|labels|, i requires 0 <= i < |labels| => AsciiText(labels[i]))
  }

  /** The parser's answer for the labels it has read. */
  function NameOf(labels: seq<Octets>): Result<string, DnsError> {
    match DomainNames.Normalize(Join(Names(labels), '.'))
    case None => Err(InvalidName)
    case Some(name) => Ok(name)
  }

  predicate HasQuestion(packet: Octets) {
    |packet| >= 17 && (packet[4] != 0 || packet[5] != 0)
  }

  function QuestionName(packet: Octets): Result<string, DnsError> {
    if !HasQuestion(packet) then Err(QuestionMissing)
    else
      match ReadLabels(packet[HEADER..])
      case Malformed => Err(InvalidLabel)
      case Labels(labels, rest) => if labels == [] || |rest| < 4 then Err(InvalidQuestion) else NameOf(labels)
  }

  /** What the loop still has to do at an offset. */
  function Pending(packet: Octets, offset: nat, labels: seq<Octets>): Question
    requires offset <= |packet|
  {
    match ReadLabels(packet[offset..])
    case Malformed => Malformed
    case Labels(more, rest) => Labels(labels + more, rest)
  }

  lemma Slices(packet: Octets, offset: nat, n: nat)
    requires offset + 1 + n <= |packet|
    ensures packet[offset..][1 + n..] == packet[offset + 1 + n..]
    ensures packet[offset..][1..1 + n] == packet[offset + 1..offset + 1 + n]
  {
  }

  lemma PendingLabel(packet: Octets, offset: nat, labels: seq<Octets>)
    requires offset < |packet| && packet[offset] != 0
    ensures var n := packet[offset] as int;
            if BadLength(packet[offset]) || offset + 1 + n > |packet| then Pending(packet, offset, labels) == Malformed
            else Pending(packet, offset, labels) == Pending(packet, offset + 1 + n, labels + [packet[offset + 1..offset + 1 + n]])
  {
    var bytes := packet[offset..];
    var n := packet[offset] as int;
    if !BadLength(packet[offset]) && offset + 1 + n <= |packet| {
      Slices(packet, offset, n);
      var part := packet[offset + 1..offset + 1 + n];
      match ReadLabels(packet[offset + 1 + n..])
      case Malformed =>
      case Labels(more, rest) => assert labels + ([part] + more) == labels + [part] + more;
    }
  }

  lemma PendingRoot(packet: Octets, offset: nat, labels: seq<Octets>)
    requires offset <= |packet| && (offset == |packet| || packet[offset] == 0)
    ensures Pending(packet, offset, labels) == Labels(labels, packet[if offset == |packet| then offset else offset + 1..])
  {
    assert labels + [] == labels;
    if offset < |packet| {
      assert packet[offset..][1..] == packet[offset + 1..];
    }
  }

  /** The loop: labels from the offset after the header; every read is in range. */
  method ReadQuestion(packet: Octets) returns (question: Question, end: nat)
    requires |packet| >= HEADER
    ensures question == ReadLabels(packet[HEADER..])
    ensures question.Labels? ==> end <= |packet| && question.rest == packet[end..]
  {
    var offset := HEADER;
    var labels: seq<Octets> := [];
    assert ReadLabels(packet[HEADER..]) == Pending(packet, HEADER, []) by {
      match ReadLabels(packet[HEADER..])
      case Malformed =>
      case Labels(more, rest) => assert [] + more == more;
    }
    while offset < |packet|
      invariant HEADER <= offset <= |packet|
      invariant ReadLabels(packet[HEADER..]) == Pending(packet, offset, labels)
      decreases |packet| - offset
    {
      var length := packet[offset];
      if length == 0 {
        PendingRoot(packet, offset, labels);
        return Labels(labels, packet[offset + 1..]), offset + 1;
      }
      PendingLabel(packet, offset, labels);
      offset := offset + 1;
      if length & 0xc0 != 0 || length > 63 || offset + length as int > |packet| { return Malformed, 0; }
      labels := labels + [packet[offset..offset + length as int]];
      offset := offset + length as int;
    }
    PendingRoot(packet, offset, labels);
    return Labels(labels, packet[offset..]), offset;
  }

  /** ReadQuestionName */
  method ReadQuestionName(packet: Octets) returns (name: Result<string, DnsError>)
    ensures name == QuestionName(packet)
  {
    if |packet| < 17 || (packet[4] == 0 && packet[5] == 0) { return Err(QuestionMissing); }
    var question, end := ReadQuestion(packet);
    if question.Malformed? { return Err(InvalidLabel); }
    if |question.labels| == 0 || end + 4 > |packet| { return Err(InvalidQuestion); }
    return NameOf(question.labels);
  }

  // ---- The wire form ---------------------------------------------------------------

  predicate ValidLabel(part: Octets) {
    1 <= |part| <= 63
  }

  predicate ValidLabels(labels: seq<Octets>) {
    forall i | 0 <= i < |labels| :: ValidLabel(labels[i])
  }

  /** Section 3.1: each label behind its length, then the root label. */
  function Wire(labels: seq<Octets>): Octets
    requires ValidLabels(labels)
  {
    if labels == [] then [0] else [|labels[0]| as bv8] + labels[0] + Wire(labels[1..])
  }

  lemma GoodLength(n: int)
    requires 1 <= n <= 63
    ensures !BadLength(n as bv8) && (n as bv8) as int == n && n as bv8 != 0
  {
    LowLength(n as bv8);
  }

  lemma LowLength(b: bv8)
    requires b <= 63
    ensures b & 0xc0 == 0
  {
  }

  lemma {:induction false} ReadWire(labels: seq<Octets>, trailing: Octets)
    requires ValidLabels(labels)
    ensures ReadLabels(Wire(labels) + trailing) == Labels(labels, trailing)
  {
    var bytes := Wire(labels) + trailing;
    if labels == [] {
      assert bytes[1..] == trailing;
    } else {
      var part := labels[0];
      GoodLength(|part|);
      assert bytes == [|part| as bv8] + part + (Wire(labels[1..]) + trailing);
      assert bytes[1..1 + |part|] == part && bytes[1 + |part|..] == Wire(labels[1..]) + trailing;
      ReadWire(labels[1..], trailing);
      assert labels == [part] + labels[1..];
    }
  }

  lemma WireLabel(bytes: Octets, labels: seq<Octets>, rest: Octets)
    requires bytes != [] && bytes[0] != 0 && !BadLength(bytes[0]) && 1 + bytes[0] as int <= |bytes|
    requires ValidLabels(labels) && bytes[1 + bytes[0] as int..] == Wire(labels) + rest
    ensures var more := [bytes[1..1 + bytes[0] as int]] + labels;
            ValidLabels(more) && bytes == Wire(more) + rest
  {
    var n := bytes[0] as int;
    var part := bytes[1..1 + n];
    WireOf(bytes[0], part, labels, rest);
    assert bytes == [bytes[0]] + part + bytes[1 + n..];
  }

  lemma {:induction false} WireOf(b: bv8, part: Octets, labels: seq<Octets>, rest: Octets)
    requires |part| == b as int && ValidLabel(part) && ValidLabels(labels)
    ensures ValidLabels([part] + labels) && Wire([part] + labels) + rest == [b] + part + (Wire(labels) + rest)
  {
    LengthOctet(b, part);
    WireCons(part, labels);
  }

  lemma LengthOctet(b: bv8, part: Octets)
    requires |part| == b as int
    ensures |part| as bv8 == b
  {
  }

  lemma {:induction false} WireCons(part: Octets, labels: seq<Octets>)
    requires ValidLabel(part) && ValidLabels(labels)
    ensures ValidLabels([part] + labels) && Wire([part] + labels) == [|part| as bv8] + part + Wire(labels)
  {
    assert ([part] + labels)[1..] == labels;
  }

  /** Whatever is read with something left over is a wire form. */
  lemma {:induction false} ReadIsWire(bytes: Octets)
    requires ReadLabels(bytes).Labels? && ReadLabels(bytes).rest != []
    ensures var q := ReadLabels(bytes); ValidLabels(q.labels) && bytes == Wire(q.labels) + q.rest
    decreases |bytes|
  {
    if bytes[0] == 0 {
      assert bytes == [0] + bytes[1..];
    } else {
      var tail := bytes[1 + bytes[0] as int..];
      ReadIsWire(tail);
      WireLabel(bytes, ReadLabels(tail).labels, ReadLabels(tail).rest);
    }
  }

  /** The layout of a packet with one question. */
  lemma {:induction false} PacketLayout(header: Octets, labels: seq<Octets>, trailing: Octets)
    requires |header| == HEADER && (header[4] != 0 || header[5] != 0)
    requires labels != [] && ValidLabels(labels) && |trailing| >= 4
    ensures var packet := header + Wire(labels) + trailing;
            HasQuestion(packet) && packet[HEADER..] == Wire(labels) + trailing
  {
    assert |Wire(labels[1..])| >= 1;
    var packet := header + Wire(labels) + trailing;
    assert packet[4] == header[4] && packet[5] == header[5];
  }

  /**
   * The question round trip: for all labels of 1 to 63 octets, at least one, and at
   * least four trailing octets, parsing the wire form gives the normalised name.
   */
  lemma {:induction false} QuestionRoundTrip(header: Octets, labels: seq<Octets>, trailing: Octets)
    requires |header| == HEADER && (header[4] != 0 || header[5] != 0)
    requires labels != [] && ValidLabels(labels) && |trailing| >= 4
    ensures QuestionName(header + Wire(labels) + trailing) == NameOf(labels)
  {
    PacketLayout(header, labels, trailing);
    ReadWire(labels, trailing);
  }

  lemma Rejoin(packet: Octets, wire: Octets, trailing: Octets)
    requires |packet| >= HEADER && packet[HEADER..] == wire + trailing
    ensures packet == packet[..HEADER] + wire + trailing
  {
    assert packet == packet[..HEADER] + packet[HEADER..];
  }

  /** Exactly such packets are parsed: a name comes only from a wire form behind a header that announces a question. */
  lemma ParsedIsWire(packet: Octets) returns (labels: seq<Octets>, trailing: Octets)
    requires QuestionName(packet).Ok?
    ensures (packet[4] != 0 || packet[5] != 0) && labels != [] && ValidLabels(labels) && |trailing| >= 4
    ensures packet == packet[..HEADER] + Wire(labels) + trailing
    ensures QuestionName(packet) == NameOf(labels)
  {
    labels, trailing := ReadLabels(packet[HEADER..]).labels, ReadLabels(packet[HEADER..]).rest;
    ReadIsWire(packet[HEADER..]);
    Rejoin(packet, Wire(labels), trailing);
  }

  /** Octets of canonical host names survive: the name read back is the name that was asked. */
  lemma {:induction false} CanonicalQuestion(header: Octets, labels: seq<Octets>, trailing: Octets, name: string)
    requires |header| == HEADER && (header[4] != 0 || header[5] != 0)
    requires labels != [] && ValidLabels(labels) && |trailing| >= 4
    requires DomainNames.Canonical(name) && Names(labels) == Split(name, '.')
    ensures QuestionName(header + Wire(labels) + trailing) == Ok(name)
  {
    QuestionRoundTrip(header, labels, trailing);
    JoinSplit(name, '.');
    DomainNames.CanonicalFixed(name);
  }

  // ---- The blocked reply -----------------------------------------------------------

  /** Byte 2 with the response bit, byte 3 with recursion available and NXDOMAIN; no answer, authority or additional records. */
  function Blocked(query: Octets): (reply: Octets)
    requires |query| >= HEADER
    ensures |reply| == |query|
  {
    query[..2] + [query[2] | 0x80, (query[3] & 0x70) | 0x80 | 0x03] + query[4..6] + [0, 0, 0, 0, 0, 0] + query[HEADER..]
  }

  /** CreateBlockedResponse: the reply is a changed copy of the query. */
  method CreateBlockedResponse(query: Octets) returns (reply: Result<array<bv8>, DnsError>)
    ensures reply.Err? <==> |query| < HEADER
    ensures reply.Ok? ==> fresh(reply.value) && reply.value[..] == Blocked(query)
  {
    var response := new bv8[|query|](i requires 0 <= i < |query| => query[i]);
    if response.Length < HEADER { return Err(InvalidPacket); }
    response[2] := response[2] | 0x80;
    response[3] := (response[3] & 0x70) | 0x80 | 0x03;
    for i := 6 to 12
      invariant forall j | 0 <= j < response.Length ::
                  response[j] == if j == 2 then query[2] | 0x80 else if j == 3 then (query[3] & 0x70) | 0x80 | 0x03
                                 else if 6 <= j < i then 0 else query[j]
    {
      response[i] := 0;
    }
    BlockedAt(query);
    assert response[..] == Blocked(query);
    return Ok(response);
  }

  lemma BlockedAt(query: Octets)
    requires |query| >= HEADER
    ensures forall j | 0 <= j < |query| ::
              Blocked(query)[j] == if j == 2 then query[2] | 0x80 else if j == 3 then (query[3] & 0x70) | 0x80 | 0x03
                                   else if 6 <= j < 12 then 0 else query[j]
  {
  }

  /** The question parsed from the reply is that of the query, well-formed or not. */
  lemma BlockedKeepsQuestion(query: Octets)
    requires |query| >= HEADER
    ensures QuestionName(Blocked(query)) == QuestionName(query)
    ensures Blocked(query)[..2] == query[..2]
  {
    BlockedAt(query);
    assert Blocked(query)[HEADER..] == query[HEADER..];
  }

  /** Section 4.1.1: QR is 1, RA is 1, RCODE is 3; opcode, RD and the other flags are the query's. */
  lemma BlockedFlags(query: Octets)
    requires |query| >= HEADER
    ensures var reply := Blocked(query);
            && reply[2] & 0x80 == 0x80 && reply[2] & 0x7f == query[2] & 0x7f
            && reply[3] & 0x80 == 0x80 && reply[3] & 0x0f == 3 && reply[3] & 0x70 == query[3] & 0x70
            && reply[4..6] == query[4..6] && (forall i | 6 <= i < 12 :: reply[i] == 0)
  {
    BlockedAt(query);
    FlagBits(query[2], query[3]);
    assert Blocked(query)[4..6] == query[4..6];
  }

  lemma FlagBits(a: bv8, b: bv8)
    ensures (a | 0x80) & 0x80 == 0x80 && (a | 0x80) & 0x7f == a & 0x7f
    ensures ((b & 0x70) | 0x80 | 0x03) & 0x80 == 0x80 && ((b & 0x70) | 0x80 | 0x03) & 0x0f == 3
    ensures ((b & 0x70) | 0x80 | 0x03) & 0x70 == b & 0x70
  {
  }
}
