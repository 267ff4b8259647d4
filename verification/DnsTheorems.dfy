/** What the DNS parser does with any input, and with the responses that
RFC 1035 (sections 4.1.1 to 4.1.4) describes. */
module DnsTheorems {
  import opened DnsName
  import opened DnsMessage

  // ---- arbitrary input -------------------------------------------------------

  /** Where each parsed record's data starts: just before the end of the record. */
  function Places(reader: nat -> Read, len: nat, offset: nat, count: nat): seq<int>
    decreases count
  {
    if count == 0 || offset >= len then []
    else
      match reader(offset)
      case Stop => []
      case Got(a, next) => [next - |a.rdata|] + Places(reader, len, next, count - 1)
  }

  /** Every record ends at least eleven bytes and its data after where it began. */
  ghost predicate Advances(reader: nat -> Read) {
    forall o: nat :: reader(o).Got? ==> o + 11 + |reader(o).answer.rdata| <= reader(o).next
  }

  ghost predicate Slices(buf: seq<Byte>, reader: nat -> Read) {
    forall o: nat :: reader(o).Got? ==>
      (var a := reader(o).answer; reader(o).next >= |a.rdata| && At(buf, reader(o).next - |a.rdata|, a.rdata))
  }

  predicate InOrder(p: seq<int>, a: seq<Answer>, offset: nat)
    requires |p| == |a|
  {
    (forall i :: 0 <= i < |a| ==> offset + 11 <= p[i])
    && forall i, j :: 0 <= i < j < |a| ==> p[i] + |a[i].rdata| + 11 <= p[j]
  }

  predicate SliceAt(buf: seq<Byte>, place: int, a: Answer) {
    0 <= place && At(buf, place, a.rdata)
  }

  ghost predicate SlicesInOrder(buf: seq<Byte>, p: seq<int>, a: seq<Answer>, offset: nat) {
    |p| == |a| && InOrder(p, a, offset) && forall i :: 0 <= i < |a| ==> SliceAt(buf, p[i], a[i])
  }

  lemma SlicesCons(buf: seq<Byte>, x: Answer, next: nat, p: seq<int>, a: seq<Answer>, offset: nat)
    requires SlicesInOrder(buf, p, a, next) && offset + 11 + |x.rdata| <= next
    requires SliceAt(buf, next - |x.rdata|, x)
    ensures SlicesInOrder(buf, [next - |x.rdata|] + p, [x] + a, offset)
  {
    assert forall i :: 0 < i < |[x] + a| ==> ([x] + a)[i] == a[i - 1] && ([next - |x.rdata|] + p)[i] == p[i - 1];
  }

  lemma {:induction false} WalkInOrder(buf: seq<Byte>, reader: nat -> Read, offset: nat, count: nat)
    requires Advances(reader) && Slices(buf, reader)
    ensures |Walk(reader, |buf|, offset, count)| <= count
    ensures SlicesInOrder(buf, Places(reader, |buf|, offset, count), Walk(reader, |buf|, offset, count), offset)
    decreases count
  {
    if count > 0 && offset < |buf| && reader(offset).Got? {
      var x, next := reader(offset).answer, reader(offset).next;
      WalkInOrder(buf, reader, next, count - 1);
      SlicesCons(buf, x, next, Places(reader, |buf|, next, count - 1), Walk(reader, |buf|, next, count - 1), offset);
    }
  }

  lemma RecordIsSlice(buf: seq<Byte>, offset: nat)
    requires ReadRecord(buf, offset).Got?
    ensures var r := ReadRecord(buf, offset); var n := |r.answer.rdata|;
            offset + 10 + n <= r.next && (offset < |buf| ==> offset + 11 + n <= r.next)
            && At(buf, r.next - n, r.answer.rdata)
  {
  }

  /** In any packet the data of the answers are slices of it, in order, each after
      the end of the one before with room for a name and a record header between. */
  lemma AnswersAreSlices(buf: seq<Byte>, offset: nat, count: nat)
    ensures var p, a := Places(Reader(buf), |buf|, offset, count), Answers(buf, offset, count);
            |a| <= count && SlicesInOrder(buf, p, a, offset)
  {
    var reader := Reader(buf);
    forall o: nat | reader(o).Got?
      ensures o + 11 + |reader(o).answer.rdata| <= reader(o).next
      ensures At(buf, reader(o).next - |reader(o).answer.rdata|, reader(o).answer.rdata)
    {
      RecordIsSlice(buf, o);
    }
    WalkInOrder(buf, reader, offset, count);
  }

  lemma {:induction false} QuestionsTruncated(buf: seq<Byte>, k: nat, offset: nat, count: nat)
    requires k <= |buf|
    ensures var t := SkipQuestions(buf[..k], offset, count);
            t == SkipQuestions(buf, offset, count) || k <= t
    decreases count
  {
    if count > 0 && offset < k {
      SkipTruncated(buf, k, offset);
      if Skip(buf[..k], offset) == Skip(buf, offset) {
        QuestionsTruncated(buf, k, Skip(buf, offset) + 4, count - 1);
      } else {
        PastEnd(buf[..k], Skip(buf[..k], offset) + 4, count - 1);
      }
    }
  }

  lemma PastEnd(buf: seq<Byte>, offset: nat, count: nat)
    requires offset >= |buf|
    ensures SkipQuestions(buf, offset, count) == offset && Answers(buf, offset, count) == []
  {
  }

  lemma RecordTruncated(buf: seq<Byte>, k: nat, at: nat)
    requires k <= |buf| && RecordFits(buf[..k], at)
    ensures RecordFits(buf, at) && RecordAt(buf[..k], at) == RecordAt(buf, at)
    ensures RecordEnd(buf[..k], at) == RecordEnd(buf, at) <= k
  {
    var n := ReadU16(buf, at + 8);
    assert Bytes(buf[..k], at + 10, n) == Bytes(buf, at + 10, n);
  }

  /** A reader that stops early, and otherwise reads the same, reads a prefix. */
  lemma {:induction false} WalkPrefix(short: nat -> Read, k: nat, full: nat -> Read, len: nat, offset: nat, count: nat)
    requires k <= len && forall o: nat :: o < k ==> short(o).Stop? || short(o) == full(o)
    ensures Walk(short, k, offset, count) <= Walk(full, len, offset, count)
    decreases count
  {
    if count > 0 && offset < k && short(offset).Got? {
      WalkPrefix(short, k, full, len, short(offset).next, count - 1);
    }
  }

  lemma ReadTruncated(buf: seq<Byte>, k: nat, offset: nat)
    requires k <= |buf| && ReadRecord(buf[..k], offset).Got?
    ensures ReadRecord(buf[..k], offset) == ReadRecord(buf, offset)
  {
    SkipTruncated(buf, k, offset);
    RecordTruncated(buf, k, Skip(buf[..k], offset));
  }

  lemma AnswersTruncated(buf: seq<Byte>, k: nat, offset: nat, count: nat)
    requires k <= |buf|
    ensures Answers(buf[..k], offset, count) <= Answers(buf, offset, count)
  {
    var short, full := Reader(buf[..k]), Reader(buf);
    forall o: nat | o < k && short(o).Got? ensures short(o) == full(o) {
      ReadTruncated(buf, k, o);
    }
    WalkPrefix(short, k, full, |buf|, offset, count);
  }

  lemma SectionsTruncated(buf: seq<Byte>, k: nat, qd: nat, an: nat)
    requires k <= |buf|
    ensures Answers(buf[..k], SkipQuestions(buf[..k], 12, qd), an) <= Answers(buf, SkipQuestions(buf, 12, qd), an)
  {
    var t := SkipQuestions(buf[..k], 12, qd);
    QuestionsTruncated(buf, k, 12, qd);
    if t >= k {
      PastEnd(buf[..k], t, an);
    } else {
      AnswersTruncated(buf, k, t, an);
    }
  }

  lemma HeaderTruncated(buf: seq<Byte>, k: nat)
    requires 12 <= k <= |buf|
    ensures ReadU16(buf[..k], 0) == ReadU16(buf, 0) && buf[..k][3] == buf[3]
    ensures ReadU16(buf[..k], 4) == ReadU16(buf, 4) && ReadU16(buf[..k], 6) == ReadU16(buf, 6)
  {
  }

  /** A response that arrives cut short yields a prefix of the answers of the whole
      one, never anything else. */
  lemma TruncationGivesPrefix(buf: seq<Byte>, k: nat, id: nat)
    requires k <= |buf|
    ensures Parse(buf[..k], id) <= Parse(buf, id)
  {
    if k < 12 || ReadU16(buf, 0) != id || buf[3] % 16 != 0 {
      if k >= 12 { HeaderTruncated(buf, k); }
      assert Parse(buf[..k], id) == [];
    } else {
      HeaderTruncated(buf, k);
      SectionsTruncated(buf, k, ReadU16(buf, 4), ReadU16(buf, 6));
    }
  }

  // ---- well-formed responses -------------------------------------------------

  datatype Question = Question(name: Name, kind: nat, cls: nat)

  datatype Record = Record(name: Name, answer: Answer)

  /** `after` stands for the sections the parser does not read. */
  datatype Response = Response(
    id: nat, flags: Byte, rcodeByte: Byte, questions: seq<Question>, records: seq<Record>, counts: nat, after: seq<Byte>)

  function EncodeQuestion(q: Question): seq<Byte> {
    Encode(q.name) + (U16(q.kind) + U16(q.cls))
  }

  function EncodeQuestions(qs: seq<Question>): seq<Byte> {
    if qs == [] then [] else EncodeQuestion(qs[0]) + EncodeQuestions(qs[1..])
  }

  function EncodeFixed(a: Answer): (s: seq<Byte>)
    ensures |s| == 10
  {
    U16(a.kind) + U16(a.cls) + U32(a.ttl) + U16(|a.rdata|)
  }

  function EncodeRecord(r: Record): seq<Byte> {
    Encode(r.name) + (EncodeFixed(r.answer) + r.answer.rdata)
  }

  function EncodeRecords(rs: seq<Record>): seq<Byte> {
    if rs == [] then [] else EncodeRecord(rs[0]) + EncodeRecords(rs[1..])
  }

  function EncodeHeader(m: Response): (s: seq<Byte>)
    ensures |s| == 12
  {
    U16(m.id) + [m.flags, m.rcodeByte] + U16(|m.questions|) + U16(|m.records|) + U32(m.counts)
  }

  function EncodeResponse(m: Response): seq<Byte> {
    EncodeHeader(m) + (EncodeQuestions(m.questions) + (EncodeRecords(m.records) + m.after))
  }

  function AnswersOf(rs: seq<Record>): seq<Answer> {
    if rs == [] then [] else [rs[0].answer] + AnswersOf(rs[1..])
  }

  predicate AnswerInRange(a: Answer) {
    a.kind < 0x10000 && a.cls < 0x10000 && a.ttl < 0x100000000 && |a.rdata| < 0x10000
  }

  predicate GoodQuestions(qs: seq<Question>) {
    forall i :: 0 <= i < |qs| ==> Skippable(qs[i].name)
  }

  predicate GoodRecords(rs: seq<Record>) {
    forall i :: 0 <= i < |rs| ==> Skippable(rs[i].name) && AnswerInRange(rs[i].answer)
  }

  predicate WellFormed(m: Response) {
    m.id < 0x10000 && m.rcodeByte % 16 == 0
    && |m.questions| < 0x10000 && |m.records| < 0x10000
    && GoodQuestions(m.questions) && GoodRecords(m.records)
  }

  lemma QuestionSkipped(buf: seq<Byte>, offset: nat, q: Question, tail: seq<Byte>, count: nat)
    requires At(buf, offset, EncodeQuestion(q) + tail) && Skippable(q.name) && count > 0
    ensures At(buf, offset + |EncodeQuestion(q)|, tail)
    ensures SkipQuestions(buf, offset, count) == SkipQuestions(buf, offset + |EncodeQuestion(q)|, count - 1)
  {
    AtSplit(buf, offset, EncodeQuestion(q), tail);
    AtSplit(buf, offset, Encode(q.name), U16(q.kind) + U16(q.cls));
    SkipLandsAfter(buf, offset, q.name);
  }

  lemma {:induction false} QuestionsSkipped(buf: seq<Byte>, offset: nat, qs: seq<Question>)
    requires At(buf, offset, EncodeQuestions(qs)) && GoodQuestions(qs)
    ensures SkipQuestions(buf, offset, |qs|) == offset + |EncodeQuestions(qs)|
    decreases |qs|
  {
    if qs != [] {
      QuestionSkipped(buf, offset, qs[0], EncodeQuestions(qs[1..]), |qs|);
      QuestionsSkipped(buf, offset + |EncodeQuestion(qs[0])|, qs[1..]);
    }
  }

  lemma FixedRead(buf: seq<Byte>, at: nat, a: Answer)
    requires At(buf, at, EncodeFixed(a)) && AnswerInRange(a)
    ensures ReadU16(buf, at) == a.kind && ReadU16(buf, at + 2) == a.cls
    ensures ReadU32(buf, at + 4) == a.ttl && ReadU16(buf, at + 8) == |a.rdata|
  {
    AtSplit(buf, at, U16(a.kind) + U16(a.cls) + U32(a.ttl), U16(|a.rdata|));
    AtSplit(buf, at, U16(a.kind) + U16(a.cls), U32(a.ttl));
    AtSplit(buf, at, U16(a.kind), U16(a.cls));
    ReadU16At(buf, at, a.kind);
    ReadU16At(buf, at + 2, a.cls);
    ReadU32At(buf, at + 4, a.ttl);
    ReadU16At(buf, at + 8, |a.rdata|);
  }

  lemma RecordRead(buf: seq<Byte>, offset: nat, r: Record)
    requires At(buf, offset, EncodeRecord(r)) && Skippable(r.name) && AnswerInRange(r.answer)
    ensures offset < |buf|
    ensures ReadRecord(buf, offset) == Got(r.answer, offset + |EncodeRecord(r)|)
  {
    var a := r.answer;
    AtSplit(buf, offset, Encode(r.name), EncodeFixed(a) + a.rdata);
    SkipLandsAfter(buf, offset, r.name);
    var at := offset + |Encode(r.name)|;
    AtSplit(buf, at, EncodeFixed(a), a.rdata);
    FixedRead(buf, at, a);
    assert Bytes(buf, at + 10, |a.rdata|) == a.rdata;
  }

  lemma RecordFound(buf: seq<Byte>, offset: nat, r: Record, tail: seq<Byte>, count: nat)
    requires At(buf, offset, EncodeRecord(r) + tail) && Skippable(r.name) && AnswerInRange(r.answer) && count > 0
    ensures At(buf, offset + |EncodeRecord(r)|, tail)
    ensures Answers(buf, offset, count) == [r.answer] + Answers(buf, offset + |EncodeRecord(r)|, count - 1)
  {
    AtSplit(buf, offset, EncodeRecord(r), tail);
    RecordRead(buf, offset, r);
    WalkCons(Reader(buf), |buf|, offset, count, r.answer, offset + |EncodeRecord(r)|);
  }

  lemma WalkCons(reader: nat -> Read, len: nat, offset: nat, count: nat, a: Answer, next: nat)
    requires offset < len && count > 0 && reader(offset) == Got(a, next)
    ensures Walk(reader, len, offset, count) == [a] + Walk(reader, len, next, count - 1)
  {
  }

  lemma GoodTail(rs: seq<Record>)
    requires GoodRecords(rs) && rs != []
    ensures GoodRecords(rs[1..])
  {
  }

  lemma FirstEncoded(buf: seq<Byte>, offset: nat, rs: seq<Record>)
    requires At(buf, offset, EncodeRecords(rs)) && rs != []
    ensures At(buf, offset, EncodeRecord(rs[0]) + EncodeRecords(rs[1..]))
  {
  }

  lemma FirstFound(buf: seq<Byte>, offset: nat, rs: seq<Record>, rest: seq<Answer>)
    requires rs != [] && At(buf, offset, EncodeRecord(rs[0]) + EncodeRecords(rs[1..])) && GoodRecords(rs)
    requires rest == Answers(buf, offset + |EncodeRecord(rs[0])|, |rs| - 1)
    ensures Answers(buf, offset, |rs|) == [rs[0].answer] + rest
  {
    RecordFound(buf, offset, rs[0], EncodeRecords(rs[1..]), |rs|);
  }

  lemma {:induction false} RecordsRead(buf: seq<Byte>, offset: nat, rs: seq<Record>)
    requires At(buf, offset, EncodeRecords(rs)) && GoodRecords(rs)
    ensures Answers(buf, offset, |rs|) == AnswersOf(rs)
    decreases |rs|
  {
    if rs != [] {
      GoodTail(rs);
      FirstEncoded(buf, offset, rs);
      AtSplit(buf, offset, EncodeRecord(rs[0]), EncodeRecords(rs[1..]));
      RecordsRead(buf, offset + |EncodeRecord(rs[0])|, rs[1..]);
      FirstFound(buf, offset, rs, AnswersOf(rs[1..]));
    }
  }

  lemma HeaderRead(buf: seq<Byte>, m: Response)
    requires At(buf, 0, EncodeHeader(m)) && WellFormed(m)
    ensures ReadU16(buf, 0) == m.id && buf[3] == m.rcodeByte
    ensures ReadU16(buf, 4) == |m.questions| && ReadU16(buf, 6) == |m.records|
  {
    var id, flags, qd, an := U16(m.id), [m.flags, m.rcodeByte], U16(|m.questions|), U16(|m.records|);
    AtSplit(buf, 0, id + flags + qd + an, U32(m.counts));
    AtSplit(buf, 0, id + flags + qd, an);
    AtSplit(buf, 0, id + flags, qd);
    AtSplit(buf, 0, id, flags);
    assert buf[2 + 1] == flags[1];
    ReadU16At(buf, 0, m.id);
    ReadU16At(buf, 4, |m.questions|);
    ReadU16At(buf, 6, |m.records|);
  }

  lemma SectionsPlaced(buf: seq<Byte>, head: seq<Byte>, qs: seq<Byte>, rs: seq<Byte>, after: seq<Byte>)
    requires buf == head + (qs + (rs + after))
    ensures At(buf, 0, head) && At(buf, |head|, qs) && At(buf, |head| + |qs|, rs)
  {
    AtSplit(buf, 0, head, qs + (rs + after));
    AtSplit(buf, |head|, qs, rs + after);
    AtSplit(buf, |head| + |qs|, rs, after);
  }

  lemma SectionsParsed(buf: seq<Byte>, m: Response)
    requires WellFormed(m) && At(buf, 0, EncodeHeader(m)) && At(buf, 12, EncodeQuestions(m.questions))
    requires At(buf, 12 + |EncodeQuestions(m.questions)|, EncodeRecords(m.records))
    ensures Parse(buf, m.id) == AnswersOf(m.records)
  {
    HeaderRead(buf, m);
    QuestionsSkipped(buf, 12, m.questions);
    RecordsRead(buf, 12 + |EncodeQuestions(m.questions)|, m.records);
  }

  /** Parsing an encoded response gives exactly its answers, in order, whatever its
      questions, with or without compressed names and trailing sections. */
  lemma ParseOfResponse(m: Response)
    requires WellFormed(m)
    ensures Parse(EncodeResponse(m), m.id) == AnswersOf(m.records)
  {
    var buf := EncodeResponse(m);
    SectionsPlaced(buf, EncodeHeader(m), EncodeQuestions(m.questions), EncodeRecords(m.records), m.after);
    SectionsParsed(buf, m);
  }

  // ---- a query read back -----------------------------------------------------------

  /** The labels at `offset` as their length bytes say, up to the root label. */
  function ReadLabels(buf: seq<Byte>, offset: nat): seq<seq<Byte>>
    decreases |buf| - offset
  {
    if offset >= |buf| || buf[offset] == 0 || offset + 1 + buf[offset] > |buf| then []
    else
      var next := offset + 1 + buf[offset];
      [buf[offset + 1..next]] + ReadLabels(buf, next)
  }

  predicate OneByteLengths(labels: seq<seq<Byte>>) {
    forall i :: 0 <= i < |labels| ==> 1 <= |labels[i]| <= 255
  }

  lemma LabelRead(buf: seq<Byte>, offset: nat, l: seq<Byte>, rest: seq<Byte>)
    requires At(buf, offset, EncodeLabel(l) + rest) && 1 <= |l| <= 255
    ensures At(buf, offset + 1 + |l|, rest)
    ensures ReadLabels(buf, offset) == [l] + ReadLabels(buf, offset + 1 + |l|)
  {
    AtFirst(buf, offset, EncodeLabel(l) + rest);
    AtSplit(buf, offset, EncodeLabel(l), rest);
    AtSplit(buf, offset, [|l| % 256], l);
    assert buf[offset + 1..offset + 1 + |l|] == l;
  }

  /** A label of another length is not what is read. */
  lemma LabelMisread(buf: seq<Byte>, offset: nat, l: seq<Byte>, rest: seq<Byte>, all: seq<seq<Byte>>)
    requires At(buf, offset, EncodeLabel(l) + rest) && !(1 <= |l| <= 255) && all != [] && all[0] == l
    ensures ReadLabels(buf, offset) != all
  {
    AtFirst(buf, offset, EncodeLabel(l) + rest);
    var got := ReadLabels(buf, offset);
    if got != [] { assert |got[0]| == |l| % 256; }
  }

  lemma FirstLabelEncoded(labels: seq<seq<Byte>>, tail: seq<Byte>)
    requires labels != []
    ensures EncodeLabels(labels) + tail == EncodeLabel(labels[0]) + (EncodeLabels(labels[1..]) + tail)
  {
  }

  lemma LengthsCons(labels: seq<seq<Byte>>)
    requires labels != []
    ensures OneByteLengths(labels) <==> 1 <= |labels[0]| <= 255 && OneByteLengths(labels[1..])
  {
    if OneByteLengths(labels[1..]) {
      forall i | 1 <= i < |labels| ensures 1 <= |labels[i]| <= 255 { assert labels[1..][i - 1] == labels[i]; }
    }
  }

  /** The encoded labels read back as they were exactly if every label's length fits a
      byte and is not zero. */
  lemma {:induction false} LabelsReadBackIff(buf: seq<Byte>, offset: nat, labels: seq<seq<Byte>>, tail: seq<Byte>)
    requires At(buf, offset, EncodeLabels(labels) + tail) && tail != [] && tail[0] == 0
    ensures ReadLabels(buf, offset) == labels <==> OneByteLengths(labels)
    decreases |labels|
  {
    if labels == [] {
      assert EncodeLabels(labels) + tail == tail;
      AtFirst(buf, offset, tail);
    } else {
      var l, rest := labels[0], labels[1..];
      FirstLabelEncoded(labels, tail);
      LengthsCons(labels);
      if 1 <= |l| <= 255 {
        LabelRead(buf, offset, l, EncodeLabels(rest) + tail);
        LabelsReadBackIff(buf, offset + 1 + |l|, rest, tail);
        assert labels == [l] + rest;
        assert ([l] + ReadLabels(buf, offset + 1 + |l|))[1..] == ReadLabels(buf, offset + 1 + |l|);
      } else {
        LabelMisread(buf, offset, l, EncodeLabels(rest) + tail, labels);
      }
    }
  }

  lemma QueryParts(domain: seq<Byte>, id: nat)
    ensures At(Query(domain, id), 0, QueryHeader(id))
    ensures At(Query(domain, id), 12, EncodeLabels(Labels(domain)) + ([0] + U16(1) + U16(1)))
  {
    var q, name, tail := Query(domain, id), EncodeLabels(Labels(domain)), U16(1) + U16(1);
    AtSplit(q, 0, QueryHeader(id), name + [0] + tail);
    assert name + [0] + tail == name + ([0] + U16(1) + U16(1));
  }

  /** A built query reads back: its identifier, recursion desired and no other flag, one
      question and no records, and the labels of the name. */
  lemma QueryReadsBack(domain: seq<Byte>, id: nat)
    requires id < 0x10000
    ensures var q := Query(domain, id);
            && |q| >= 12 && ReadU16(q, 0) == id && q[2] == 1 && q[3] == 0
            && ReadU16(q, 4) == 1 && ReadU16(q, 6) == 0 && ReadU16(q, 8) == 0 && ReadU16(q, 10) == 0
            && (ReadLabels(q, 12) == Labels(domain) <==> OneByteLengths(Labels(domain)))
  {
    var q, h := Query(domain, id), QueryHeader(id);
    QueryParts(domain, id);
    assert forall i :: 0 <= i < 12 ==> q[0 + i] == h[i];
    assert h[0] == id / 256 % 256 && h[1] == id % 256 && h[2] == 1 && h[3] == 0 && h[4] == 0 && h[5] == 1;
    assert h[6] == 0 && h[7] == 0 && h[8] == 0 && h[9] == 0 && h[10] == 0 && h[11] == 0;
    LabelsReadBackIff(q, 12, Labels(domain), [0] + U16(1) + U16(1));
  }
}
