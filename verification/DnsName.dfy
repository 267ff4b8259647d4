/** Domain names on the wire (RFC 1035, sections 3.1 and 4.1.4): splitting a dotted
name into labels, encoding them, and skipping an encoded name in a packet. */
module DnsName {

  type Byte = b: int | 0 <= b < 256

  const DOT: Byte := 46

  // ---- dotted names ----------------------------------------------------------

  /** Where the first dot is; the length if there is none. */
  function FirstDot(s: seq<Byte>): (k: nat)
    ensures k <= |s| && (k < |s| ==> s[k] == DOT) && forall i :: 0 <= i < k ==> s[i] != DOT
  {
    if s == [] || s[0] == DOT then 0 else 1 + FirstDot(s[1..])
  }

  /** Reading up to each dot until the stream is at its end: a final dot is not
      followed by an empty label, and the empty name has no labels. */
  function Labels(domain: seq<Byte>): seq<seq<Byte>>
    decreases |domain|
  {
    if domain == [] then []
    else
      var k := FirstDot(domain);
      if k == |domain| then [domain] else [domain[..k]] + Labels(domain[k + 1..])
  }

  function Join(labels: seq<seq<Byte>>): seq<Byte> {
    if labels == [] then []
    else if |labels| == 1 then labels[0]
    else labels[0] + [DOT] + Join(labels[1..])
  }

  predicate Dotless(s: seq<Byte>) {
    DOT !in s
  }

  lemma FirstDotOf(a: seq<Byte>, b: seq<Byte>)
    requires Dotless(a)
    ensures FirstDot(a + [DOT] + b) == |a| && FirstDot(a) == |a|
  {
    var s := a + [DOT] + b;
    assert s[|a|] == DOT;
    assert forall i :: 0 <= i < |a| ==> s[i] == a[i] && a[i] in a;
  }

  /** Joining labels and splitting again gives the labels back exactly if the last
      of them is not empty. */
  lemma {:induction false} LabelsOfJoin(labels: seq<seq<Byte>>)
    requires forall l :: l in labels ==> Dotless(l)
    ensures Labels(Join(labels)) == labels <==> labels == [] || labels[|labels| - 1] != []
    ensures labels != [] ==> |Labels(Join(labels))| <= |labels|
    decreases |labels|
  {
    if |labels| == 1 {
      if labels[0] != [] { FirstDotOf(labels[0], []); }
    } else if |labels| > 1 {
      var a, rest := labels[0], labels[1..];
      assert labels == [a] + rest;
      LabelsOfJoin(rest);
      FirstDotOf(a, Join(rest));
      var s := a + [DOT] + Join(rest);
      assert s[..|a|] == a && s[|a| + 1..] == Join(rest);
      assert Labels(s) == [a] + Labels(Join(rest));
      assert ([a] + Labels(Join(rest)))[1..] == Labels(Join(rest));
    }
  }

  lemma JoinCons(l: seq<Byte>, rest: seq<seq<Byte>>)
    ensures Join([l] + rest) == if rest == [] then l else l + [DOT] + Join(rest)
  {
    assert ([l] + rest)[1..] == rest;
  }

  /** A dotted name without its final dot. */
  function Trim(domain: seq<Byte>): seq<Byte> {
    if domain != [] && domain[|domain| - 1] == DOT then domain[..|domain| - 1] else domain
  }

  lemma TrimCons(l: seq<Byte>, rest: seq<Byte>)
    ensures Trim(l + [DOT] + rest) == if rest == [] then l else l + [DOT] + Trim(rest)
  {
    var d := l + [DOT] + rest;
    if rest == [] {
      assert d[..|d| - 1] == l;
    } else if rest[|rest| - 1] == DOT {
      assert d[..|d| - 1] == l + [DOT] + rest[..|rest| - 1];
    }
  }

  /** Splitting and joining again loses a final dot and nothing else. */
  lemma {:induction false} JoinOfLabels(domain: seq<Byte>)
    ensures Join(Labels(domain)) == Trim(domain)
    ensures domain != [] ==> Labels(domain) != []
    decreases |domain|
  {
    if domain != [] {
      var k := FirstDot(domain);
      if k < |domain| {
        var l, rest := domain[..k], domain[k + 1..];
        JoinOfLabels(rest);
        JoinCons(l, Labels(rest));
        TrimCons(l, rest);
        assert domain == l + [DOT] + rest;
      }
    }
  }

  lemma {:induction false} LabelsDotless(domain: seq<Byte>)
    ensures forall l :: l in Labels(domain) ==> Dotless(l)
    decreases |domain|
  {
    if domain != [] {
      var k := FirstDot(domain);
      if k < |domain| { LabelsDotless(domain[k + 1..]); }
    }
  }

  // ---- the encoding ----------------------------------------------------------

  /** One label: its length, cast to a byte, and its bytes. */
  function EncodeLabel(l: seq<Byte>): seq<Byte> {
    [|l| % 256] + l
  }

  function EncodeLabels(labels: seq<seq<Byte>>): seq<Byte> {
    if labels == [] then [] else EncodeLabel(labels[0]) + EncodeLabels(labels[1..])
  }

  /** A whole name ends in the root label, or in a pointer to an earlier name. */
  datatype End = Root | Pointer(high: Byte, low: Byte)

  datatype Name = Name(labels: seq<seq<Byte>>, end: End)

  function EncodeEnd(e: End): seq<Byte> {
    match e
    case Root => [0]
    case Pointer(high, low) => [high, low]
  }

  function Encode(n: Name): seq<Byte> {
    EncodeLabels(n.labels) + EncodeEnd(n.end)
  }

  /** Reads one label, as getline does with a dot for delimiter. */
  method GetLabel(domain: seq<Byte>, pos: nat) returns (part: seq<Byte>, next: nat)
    requires pos < |domain|
    ensures pos + |part| <= |domain| && part == domain[pos..pos + |part|]
    ensures FirstDot(domain[pos..]) == |part|
    ensures next == if pos + |part| < |domain| then pos + |part| + 1 else |domain|
  {
    var i := pos;
    while i < |domain| && domain[i] != DOT
      invariant pos <= i <= |domain|
      invariant forall k :: pos <= k < i ==> domain[k] != DOT
    {
      i := i + 1;
    }
    part := domain[pos..i];
    next := if i < |domain| then i + 1 else i;
    assert FirstDot(domain[pos..]) == i - pos by {
      var s := domain[pos..];
      assert forall k :: 0 <= k < i - pos ==> s[k] == domain[pos + k];
      if i < |domain| { assert s[i - pos] == DOT; }
    }
  }

  /** One round of the encoder: the next label's length byte and bytes. */
  method AppendLabel(domain: seq<Byte>, pos: nat, done: seq<Byte>) returns (result: seq<Byte>, next: nat)
    requires pos < |domain|
    ensures pos < next <= |domain|
    ensures result + Remaining(domain, next) == done + Remaining(domain, pos)
  {
    var part;
    part, next := GetLabel(domain, pos);
    RemainingStep(domain, pos, part, next, done);
    result := done + [|part| % 256] + part;
  }

  /** encode_dns_name. */
  method EncodeDnsName(domain: seq<Byte>) returns (result: seq<Byte>)
    ensures result == Encode(Name(Labels(domain), Root))
  {
    ghost var all := EncodeLabels(Labels(domain));
    result := [];
    var pos := 0;
    assert domain[0..] == domain;
    while pos < |domain|
      invariant 0 <= pos <= |domain| && all == result + Remaining(domain, pos)
      decreases |domain| - pos
    {
      result, pos := AppendLabel(domain, pos, result);
    }
    assert Remaining(domain, pos) == [] by { assert domain[pos..] == []; }
    result := result + [0];
  }

  /** What is left to write when the stream is at `pos`. */
  ghost function Remaining(domain: seq<Byte>, pos: nat): seq<Byte>
    requires pos <= |domain|
  {
    EncodeLabels(Labels(domain[pos..]))
  }

  lemma RemainingStep(domain: seq<Byte>, pos: nat, part: seq<Byte>, next: nat, done: seq<Byte>)
    requires pos + |part| <= |domain| && pos < |domain| && part == domain[pos..pos + |part|]
    requires FirstDot(domain[pos..]) == |part|
    requires next == if pos + |part| < |domain| then pos + |part| + 1 else |domain|
    ensures done + [|part| % 256] + part + Remaining(domain, next) == done + Remaining(domain, pos)
  {
    LabelsStep(domain, pos, part, next);
    EncodeCons(done, Labels(domain[pos..]), part, Labels(domain[next..]));
  }

  lemma EncodeCons(done: seq<Byte>, all: seq<seq<Byte>>, l: seq<Byte>, rest: seq<seq<Byte>>)
    requires all == [l] + rest
    ensures done + [|l| % 256] + l + EncodeLabels(rest) == done + EncodeLabels(all)
  {
    assert all[0] == l && all[1..] == rest;
    assert EncodeLabels(all) == [|l| % 256] + l + EncodeLabels(rest);
  }

  lemma LabelsStep(domain: seq<Byte>, pos: nat, part: seq<Byte>, next: nat)
    requires pos + |part| <= |domain| && pos < |domain| && part == domain[pos..pos + |part|]
    requires FirstDot(domain[pos..]) == |part|
    requires next == if pos + |part| < |domain| then pos + |part| + 1 else |domain|
    ensures Labels(domain[pos..]) == [part] + Labels(domain[next..])
  {
    var s, n := domain[pos..], |part|;
    assert s[..n] == part;
    if n < |s| {
      assert s[n + 1..] == domain[next..];
    } else {
      assert s == part && Labels(s) == [s];
      assert domain[next..] == [];
    }
  }

  // ---- skipping ----------------------------------------------------------------

  /** The offset after the name at `offset`. A length byte whose two top bits are
      set, that is one of at least 192, starts a pointer. */
  function Skip(buf: seq<Byte>, offset: nat): (r: nat)
    ensures offset <= r
    ensures r <= if offset < |buf| then |buf| + 191 else offset
    decreases |buf| - offset
  {
    if offset >= |buf| then offset
    else if buf[offset] == 0 then offset + 1
    else if buf[offset] >= 192 then offset + 2
    else Skip(buf, offset + 1 + buf[offset])
  }

  /** skip_dns_name. */
  method SkipDnsName(buf: seq<Byte>, start: nat) returns (offset: nat)
    ensures offset == Skip(buf, start)
    ensures offset <= if start < |buf| then |buf| + 191 else start
  {
    offset := start;
    while offset < |buf|
      invariant Skip(buf, offset) == Skip(buf, start)
      decreases |buf| - offset
    {
      var len := buf[offset];
      if len == 0 { return offset + 1; }
      if len >= 192 { return offset + 2; }
      offset := offset + 1 + len;
    }
  }

  /** `s` stands in `buf` at `offset`. */
  predicate At(buf: seq<Byte>, offset: nat, s: seq<Byte>) {
    offset + |s| <= |buf| && forall i :: 0 <= i < |s| ==> buf[offset + i] == s[i]
  }

  lemma AtSplit(buf: seq<Byte>, offset: nat, a: seq<Byte>, b: seq<Byte>)
    requires At(buf, offset, a + b)
    ensures At(buf, offset, a) && At(buf, offset + |a|, b)
  {
    var s := a + b;
    assert forall i :: 0 <= i < |a| ==> s[i] == a[i];
    forall i | 0 <= i < |b| ensures buf[offset + |a| + i] == b[i] {
      assert s[|a| + i] == b[i];
    }
  }

  lemma AtFirst(buf: seq<Byte>, offset: nat, s: seq<Byte>)
    requires At(buf, offset, s) && s != []
    ensures offset < |buf| && buf[offset] == s[0]
  {
    assert buf[offset + 0] == s[0];
  }

  /** Labels that skipping takes for labels, and an end that it takes for an end. */
  predicate Skippable(n: Name) {
    (forall i :: 0 <= i < |n.labels| ==> 1 <= |n.labels[i]| <= 191)
    && (n.end.Pointer? ==> n.end.high >= 192)
  }

  /** The length byte says how long the label is, or that there is none. A label of
      256 bytes or more whose length modulo 256 is 1 to 191 is not like this: its
      length byte leads into its own payload. */
  predicate LengthTells(l: seq<Byte>) {
    |l| <= 191 || |l| % 256 == 0 || |l| % 256 >= 192
  }

  /** Wherever a name stands in a packet, skipping lands exactly after it if and only
      if every label has 1 to 191 bytes; names that follow RFC 1035 have labels of 1
      to 63. */
  lemma {:induction false} SkipLandsAfterIff(buf: seq<Byte>, offset: nat, n: Name)
    requires At(buf, offset, Encode(n)) && forall l :: l in n.labels ==> LengthTells(l)
    requires n.end.Pointer? ==> n.end.high >= 192
    ensures Skip(buf, offset) == offset + |Encode(n)| <==> Skippable(n)
    ensures Skip(buf, offset) <= offset + |Encode(n)|
    decreases |n.labels|
  {
    AtFirst(buf, offset, Encode(n));
    if n.labels == [] {
      assert Encode(n) == EncodeEnd(n.end);
    } else {
      var l, rest := n.labels[0], Name(n.labels[1..], n.end);
      var head := EncodeLabel(l);
      assert Encode(n) == head + Encode(rest);
      assert Encode(n)[0] == |l| % 256 && LengthTells(l);
      AtSplit(buf, offset, head, Encode(rest));
      assert |Encode(rest)| >= 1;
      SkipLandsAfterIff(buf, offset + |head|, rest);
      assert n.labels == [l] + rest.labels;
      if 1 <= |l| <= 191 {
        assert Skip(buf, offset) == Skip(buf, offset + |head|);
        assert Skippable(n) <==> Skippable(rest) by {
          if Skippable(n) {
            assert forall i :: 0 <= i < |rest.labels| ==> rest.labels[i] == n.labels[i + 1];
          }
        }
      } else {
        assert !Skippable(n);
        assert Skip(buf, offset) <= offset + 2 && |Encode(n)| >= |head| + 1;
      }
    }
  }

  /** Of any other label, the outcome depends on the bytes of its payload, where the
      skip goes on. */
  lemma LongLabelIsRead(buf: seq<Byte>, offset: nat, l: seq<Byte>, rest: seq<Byte>)
    requires At(buf, offset, EncodeLabel(l) + rest) && !LengthTells(l)
    ensures var next := offset + 1 + |l| % 256;
            offset + 1 < next < offset + |EncodeLabel(l)| && Skip(buf, offset) == Skip(buf, next)
  {
    AtFirst(buf, offset, EncodeLabel(l) + rest);
  }

  lemma SkipLandsAfter(buf: seq<Byte>, offset: nat, n: Name)
    requires At(buf, offset, Encode(n)) && Skippable(n)
    ensures Skip(buf, offset) == offset + |Encode(n)|
  {
    SkipLandsAfterIff(buf, offset, n);
  }

  /** Cutting a packet short changes the skip only by leaving it past the cut. */
  lemma {:induction false} SkipTruncated(buf: seq<Byte>, k: nat, offset: nat)
    requires k <= |buf|
    ensures Skip(buf[..k], offset) == Skip(buf, offset)
            || (k <= Skip(buf[..k], offset) <= Skip(buf, offset))
    decreases |buf| - offset
  {
    if offset < k && 0 < buf[offset] < 192 {
      SkipTruncated(buf, k, offset + 1 + buf[offset]);
    }
  }
}
