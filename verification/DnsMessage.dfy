/** DNS messages (RFC 1035, sections 4.1.1 to 4.1.3): the query that is sent and
the parser of the response. */
module DnsMessage {
  import opened DnsName

  datatype Answer = Answer(kind: nat, cls: nat, ttl: nat, rdata: seq<Byte>)

  function U16(n: nat): (s: seq<Byte>)
    ensures |s| == 2
  {
    [n / 256 % 256, n % 256]
  }

  function U32(n: nat): (s: seq<Byte>)
    ensures |s| == 4
  {
    U16(n / 0x10000) + U16(n % 0x10000)
  }

  function ReadU16(buf: seq<Byte>, offset: nat): (n: nat)
    requires offset + 2 <= |buf|
    ensures n < 0x10000
  {
    (buf[offset] as int) * 256 + buf[offset + 1]
  }

  function ReadU32(buf: seq<Byte>, offset: nat): (n: nat)
    requires offset + 4 <= |buf|
  {
    (buf[offset] as int) * 0x1000000 + (buf[offset + 1] as int) * 0x10000
    + (buf[offset + 2] as int) * 0x100 + buf[offset + 3]
  }

  lemma ReadU16At(buf: seq<Byte>, offset: nat, n: nat)
    requires At(buf, offset, U16(n)) && n < 0x10000
    ensures ReadU16(buf, offset) == n
  {
    var s := U16(n);
    assert s[0] == buf[offset + 0] && s[1] == buf[offset + 1];
  }

  lemma ReadU32At(buf: seq<Byte>, offset: nat, n: nat)
    requires At(buf, offset, U32(n)) && n < 0x100000000
    ensures ReadU32(buf, offset) == n
  {
    AtSplit(buf, offset, U16(n / 0x10000), U16(n % 0x10000));
    ReadU16At(buf, offset, n / 0x10000);
    ReadU16At(buf, offset + 2, n % 0x10000);
  }

  // ---- the query -------------------------------------------------------------

  /** Recursion desired, one question. */
  function QueryHeader(id: nat): (s: seq<Byte>)
    ensures |s| == 12
  {
    U16(id) + [1, 0] + U16(1) + U16(0) + U16(0) + U16(0)
  }

  /** The question asks for an A record in class IN. */
  function Query(domain: seq<Byte>, id: nat): seq<Byte> {
    QueryHeader(id) + (Encode(Name(Labels(domain), Root)) + (U16(1) + U16(1)))
  }

  /** build_dns_query. */
  method BuildDnsQuery(domain: seq<Byte>, id: nat) returns (packet: seq<Byte>)
    requires id < 0x10000
    ensures packet == Query(domain, id)
    ensures packet[..12] == [id / 256, id % 256, 1, 0, 0, 1, 0, 0, 0, 0, 0, 0]
    ensures |packet| == 12 + |EncodeLabels(Labels(domain))| + 5 && packet[|packet| - 5..] == [0, 0, 1, 0, 1]
  {
    packet := [id / 256, id % 256];
    packet := packet + [0x01, 0x00];
    packet := packet + [0x00, 0x01];
    packet := packet + [0x00, 0x00] + [0x00, 0x00] + [0x00, 0x00];
    assert packet == QueryHeader(id);
    var name := EncodeDnsName(domain);
    packet := packet + name;
    packet := packet + [0x00, 0x01];
    packet := packet + [0x00, 0x01];
    assert packet == Query(domain, id);
  }

  lemma NamePlaced(q: seq<Byte>, head: seq<Byte>, n: Name, tail: seq<Byte>)
    requires q == head + (Encode(n) + tail)
    ensures At(q, |head|, Encode(n)) && At(q, |head| + |Encode(n)|, tail)
  {
    AtSplit(q, 0, head, Encode(n) + tail);
    AtSplit(q, |head|, Encode(n), tail);
  }

  /** Skipping the name of a built query lands on its QTYPE, with only QTYPE and
      QCLASS after it, exactly if every label has 1 to 191 bytes. */
  lemma QuerySkipsToType(domain: seq<Byte>, id: nat)
    requires forall l :: l in Labels(domain) ==> LengthTells(l)
    ensures var q := Query(domain, id); var at := Skip(q, 12);
            && (at + 4 == |q| <==> Skippable(Name(Labels(domain), Root)))
            && (at + 4 == |q| ==> ReadU16(q, at) == 1 && ReadU16(q, at + 2) == 1)
  {
    var n, q := Name(Labels(domain), Root), Query(domain, id);
    NamePlaced(q, QueryHeader(id), n, U16(1) + U16(1));
    SkipLandsAfterIff(q, 12, n);
    var at := 12 + |Encode(n)|;
    assert |q| == at + 4;
    AtSplit(q, at, U16(1), U16(1));
    ReadU16At(q, at, 1);
    ReadU16At(q, at + 2, 1);
  }

  // ---- the parser ------------------------------------------------------------

  function SkipQuestions(buf: seq<Byte>, offset: nat, count: nat): nat
    decreases count
  {
    if count == 0 || offset >= |buf| then offset
    else SkipQuestions(buf, Skip(buf, offset) + 4, count - 1)
  }

  /** A record's fixed part at `at` and its data, if all of it is there. */
  predicate RecordFits(buf: seq<Byte>, at: nat) {
    at + 10 <= |buf| && at + 10 + ReadU16(buf, at + 8) <= |buf|
  }

  function Bytes(buf: seq<Byte>, from: nat, n: nat): (r: seq<Byte>)
    requires from + n <= |buf|
    ensures |r| == n && forall i :: 0 <= i < n ==> r[i] == buf[from + i]
  {
    seq(n, i requires 0 <= i < n => buf[from + i])
  }

  function RecordAt(buf: seq<Byte>, at: nat): Answer
    requires RecordFits(buf, at)
  {
    Answer(ReadU16(buf, at), ReadU16(buf, at + 2), ReadU32(buf, at + 4), Bytes(buf, at + 10, ReadU16(buf, at + 8)))
  }

  function RecordEnd(buf: seq<Byte>, at: nat): nat
    requires RecordFits(buf, at)
  {
    at + 10 + ReadU16(buf, at + 8)
  }

  /** One round of the answer loop: it breaks off, or has read a record. */
  datatype Read = Stop | Got(answer: Answer, next: nat)

  function ReadRecord(buf: seq<Byte>, offset: nat): Read {
    var at := Skip(buf, offset);
    if RecordFits(buf, at) then Got(RecordAt(buf, at), RecordEnd(buf, at)) else Stop
  }

  function Reader(buf: seq<Byte>): nat -> Read {
    (offset: nat) => ReadRecord(buf, offset)
  }

  /** The answers read one after the other from `offset`, at most `count`. */
  function Walk(reader: nat -> Read, len: nat, offset: nat, count: nat): seq<Answer>
    decreases count
  {
    if count == 0 || offset >= len then []
    else
      match reader(offset)
      case Stop => []
      case Got(a, next) => [a] + Walk(reader, len, next, count - 1)
  }

  function Answers(buf: seq<Byte>, offset: nat, count: nat): seq<Answer> {
    Walk(Reader(buf), |buf|, offset, count)
  }

  function Parse(buf: seq<Byte>, expectedId: nat): seq<Answer> {
    if |buf| < 12 || ReadU16(buf, 0) != expectedId || buf[3] % 16 != 0 then []
    else Answers(buf, SkipQuestions(buf, 12, ReadU16(buf, 4)), ReadU16(buf, 6))
  }

  method SkipQuestionSection(buf: seq<Byte>, count: nat) returns (offset: nat)
    ensures offset == SkipQuestions(buf, 12, count)
  {
    offset := 12;
    var i := 0;
    while i < count && offset < |buf|
      invariant 0 <= i <= count && SkipQuestions(buf, offset, count - i) == SkipQuestions(buf, 12, count)
    {
      offset := SkipDnsName(buf, offset);
      offset := offset + 4;
      i := i + 1;
    }
  }

  method ParseRecord(buf: seq<Byte>, start: nat) returns (r: Read)
    ensures r == ReadRecord(buf, start)
  {
    var offset := SkipDnsName(buf, start);
    if offset + 10 > |buf| { return Stop; }
    var kind, cls, ttl := ReadU16(buf, offset), ReadU16(buf, offset + 2), ReadU32(buf, offset + 4);
    var rdlength := ReadU16(buf, offset + 8);
    offset := offset + 10;
    if offset + rdlength > |buf| { return Stop; }
    var rdata := buf[offset..offset + rdlength];
    assert rdata == Bytes(buf, offset, rdlength);
    return Got(Answer(kind, cls, ttl, rdata), offset + rdlength);
  }

  /** What the walk ends with when `done` has been collected before it. */
  ghost function WalkAfter(done: seq<Answer>, reader: nat -> Read, len: nat, offset: nat, count: nat): seq<Answer>
    decreases count
  {
    if count == 0 || offset >= len || reader(offset).Stop? then done
    else WalkAfter(done + [reader(offset).answer], reader, len, reader(offset).next, count - 1)
  }

  lemma {:induction false} WalkAfterIs(done: seq<Answer>, reader: nat -> Read, len: nat, offset: nat, count: nat)
    ensures WalkAfter(done, reader, len, offset, count) == done + Walk(reader, len, offset, count)
    decreases count
  {
    if count > 0 && offset < len && reader(offset).Got? {
      WalkAfterIs(done + [reader(offset).answer], reader, len, reader(offset).next, count - 1);
    }
  }

  method ParseAnswers(buf: seq<Byte>, start: nat, count: nat) returns (answers: seq<Answer>)
    ensures answers == Answers(buf, start, count)
  {
    answers := [];
    ghost var reader := Reader(buf);
    var offset: nat, left: nat := start, count;
    while left > 0 && offset < |buf|
      invariant WalkAfter(answers, reader, |buf|, offset, left) == WalkAfter([], reader, |buf|, start, count)
      decreases left
    {
      var r := ParseRecord(buf, offset);
      assert r == reader(offset);
      if r.Stop? { break; }
      answers, offset, left := answers + [r.answer], r.next, left - 1;
    }
    WalkAfterIs([], reader, |buf|, start, count);
  }

  /** parse_dns_response. */
  method ParseDnsResponse(buf: seq<Byte>, expectedId: nat) returns (answers: seq<Answer>)
    ensures answers == Parse(buf, expectedId)
    ensures |buf| < 12 || (buf[0] as int) * 256 + buf[1] != expectedId || buf[3] % 16 != 0 ==> answers == []
  {
    if |buf| < 12 { return []; }
    if ReadU16(buf, 0) != expectedId { return []; }
    if buf[3] % 16 != 0 { return []; }
    var offset := SkipQuestionSection(buf, ReadU16(buf, 4));
    answers := ParseAnswers(buf, offset, ReadU16(buf, 6));
  }
}
