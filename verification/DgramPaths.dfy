/** The two ways handle_readable routes a batch of received datagrams: one by one,
and in two passes into a shared buffer. */
module DgramPaths {
  import opened DgramRouting

  /** One slot of the receive batch: the sender, the buffer, the bytes received. */
  datatype Entry = Entry(addr: Addr, buf: Bytes, transferred: nat)

  /** A message handed to the batch callback: a slice of the shared buffer. */
  datatype Message = Message(offset: nat, len: nat, from: Addr)

  predicate Filled(e: Entry) {
    e.transferred <= |e.buf|
  }

  function DatagramOf(e: Entry): Datagram
    requires Filled(e)
  {
    Datagram(e.addr, e.buf[..e.transferred])
  }

  function DatagramsOf(es: seq<Entry>): (ds: seq<Datagram>)
    requires forall i :: 0 <= i < |es| ==> Filled(es[i])
    ensures |ds| == |es| && forall i :: 0 <= i < |es| ==> ds[i] == DatagramOf(es[i])
  {
    seq(|es|, i requires 0 <= i < |es| => DatagramOf(es[i]))
  }

  lemma RouteNext(r: Routed, flags: seq<set<Peer>>, demux: bool, ds: seq<Datagram>, i: nat)
    requires |flags| == |ds| && i < |ds|
    ensures RouteAll(r, flags[..i + 1], demux, ds[..i + 1]) ==
            RouteOne(RouteAll(r, flags[..i], demux, ds[..i]), flags[i], demux, ds[i])
  {
    assert ds[..i + 1][..i] == ds[..i] && flags[..i + 1][..i] == flags[..i];
  }

  lemma FlatAppend(ds: seq<Datagram>, d: Datagram)
    ensures Flat(ds + [d]) == Flat(ds) + d.data
  {
    assert (ds + [d])[..|ds|] == ds;
  }

  /** The path with an on_data callback: every datagram on its own. `flags[i]` holds
      the peers open when datagram `i` is looked up. */
  method SinglePath(entries: array<Entry>, count: nat, claims0: map<Addr, Peer>, flags: seq<set<Peer>>, demux: bool)
    returns (claims: map<Addr, Peer>, handed: seq<Datagram>, delivered: seq<Delivery>)
    requires count == |flags| <= entries.Length && forall i :: 0 <= i < count ==> Filled(entries[i])
    ensures Routed(claims, handed, delivered) ==
            RouteAll(Routed(claims0, [], []), flags, demux, DatagramsOf(entries[..count]))
  {
    ghost var ds := DatagramsOf(entries[..count]);
    claims, handed, delivered := claims0, [], [];
    for i := 0 to count
      invariant Routed(claims, handed, delivered) == RouteAll(Routed(claims0, [], []), flags[..i], demux, ds[..i])
    {
      RouteNext(Routed(claims0, [], []), flags, demux, ds, i);
      var entry := entries[i];
      var data := entry.buf[..entry.transferred];
      if entry.addr in claims && claims[entry.addr] in flags[i] {
        if !demux {
          delivered := delivered + [Delivery(claims[entry.addr], data)];
        }
        continue;
      }
      if entry.addr in claims {
        claims := claims - {entry.addr};
      }
      handed := handed + [Datagram(entry.addr, data)];
    }
    assert ds[..count] == ds && flags[..count] == flags;
  }

  /** First pass of the batch path: forward claimed datagrams, drop stale claims,
      and count the rest. */
  method FirstPass(entries: array<Entry>, count: nat, claims0: map<Addr, Peer>, flags: seq<set<Peer>>, demux: bool)
    returns (claims: map<Addr, Peer>, delivered: seq<Delivery>, totalBytes: nat, unclaimedCount: nat)
    requires count == |flags| <= entries.Length && forall i :: 0 <= i < count ==> Filled(entries[i])
    ensures var r := RouteAll(Routed(claims0, [], []), flags, demux, DatagramsOf(entries[..count]));
            claims == r.claims && delivered == r.peers && unclaimedCount == |r.parent| && totalBytes == |Flat(r.parent)|
  {
    ghost var ds := DatagramsOf(entries[..count]);
    ghost var handed: seq<Datagram> := [];
    claims, delivered, totalBytes, unclaimedCount := claims0, [], 0, 0;
    for i := 0 to count
      invariant Routed(claims, handed, delivered) == RouteAll(Routed(claims0, [], []), flags[..i], demux, ds[..i])
      invariant unclaimedCount == |handed| && totalBytes == |Flat(handed)|
    {
      RouteNext(Routed(claims0, [], []), flags, demux, ds, i);
      FlatAppend(handed, ds[i]);
      var from := entries[i].addr;
      if from in claims {
        if claims[from] !in flags[i] {
          claims := claims - {from};
          totalBytes := totalBytes + entries[i].transferred;
          unclaimedCount := unclaimedCount + 1;
          handed := handed + [ds[i]];
        } else if !demux {
          delivered := delivered + [Delivery(claims[from], entries[i].buf[..entries[i].transferred])];
        }
      } else {
        totalBytes := totalBytes + entries[i].transferred;
        unclaimedCount := unclaimedCount + 1;
        handed := handed + [ds[i]];
      }
    }
    assert ds[..count] == ds && flags[..count] == flags;
  }

  /** The messages of a filled array are the datagrams of `ds`, laid end to end. */
  ghost predicate Laid(buf: Bytes, msgs: seq<Message>, ds: seq<Datagram>)
  {
    && |msgs| == |ds|
    && forall k :: 0 <= k < |ds| ==>
         && msgs[k].from == ds[k].from
         && msgs[k].offset + msgs[k].len <= |buf|
         && buf[msgs[k].offset..msgs[k].offset + msgs[k].len] == ds[k].data
  }

  lemma LaidNext(buf: Bytes, buf': Bytes, msgs: seq<Message>, ds: seq<Datagram>, d: Datagram)
    requires Laid(buf, msgs, ds) && buf' == buf + d.data
    ensures Laid(buf', msgs + [Message(|buf|, |d.data|, d.from)], ds + [d])
  {
    var msgs' := msgs + [Message(|buf|, |d.data|, d.from)];
    forall k | 0 <= k < |ds + [d]|
      ensures msgs'[k].offset + msgs'[k].len <= |buf'| &&
              buf'[msgs'[k].offset..msgs'[k].offset + msgs'[k].len] == (ds + [d])[k].data
    {
      if k < |ds| {
        assert buf'[msgs[k].offset..msgs[k].offset + msgs[k].len] == buf[msgs[k].offset..msgs[k].offset + msgs[k].len];
      }
    }
  }

  /** Copies one datagram behind those already placed and records its slice. */
  method PlaceMessage(buf: array<char>, msgs: array<Message>, offset: nat, idx: nat, e: Entry, ghost done: seq<Datagram>)
    requires Filled(e) && offset + e.transferred <= buf.Length && idx < msgs.Length
    requires buf[..offset] == Flat(done) && Laid(buf[..offset], msgs[..idx], done)
    modifies buf, msgs
    ensures buf[..offset + e.transferred] == Flat(done + [DatagramOf(e)])
    ensures Laid(buf[..offset + e.transferred], msgs[..idx + 1], done + [DatagramOf(e)])
  {
    FlatAppend(done, DatagramOf(e));
    LaidNext(buf[..offset], buf[..offset] + DatagramOf(e).data, msgs[..idx], done, DatagramOf(e));
    ghost var laid := msgs[..idx] + [Message(offset, e.transferred, e.addr)];
    CopyInto(buf, offset, e.buf, e.transferred);
    msgs[idx] := Message(offset, e.transferred, e.addr);
    assert msgs[..idx + 1] == laid;
  }

  /** Second pass: copies every datagram no open claim covers into the shared
      buffer and records its slice. Not `fits` says it would write past the end of
      the buffer or of the message array, whose sizes the first pass counted. */
  method SecondPass(entries: array<Entry>, count: nat, claims: map<Addr, Peer>, flags: seq<set<Peer>>,
                    totalBytes: nat, unclaimedCount: nat)
    returns (fits: bool, buf: array<char>, msgs: array<Message>)
    requires count == |flags| <= entries.Length && forall i :: 0 <= i < count ==> Filled(entries[i])
    ensures fresh(buf) && fresh(msgs) && msgs.Length == unclaimedCount && buf.Length == totalBytes
    ensures var selected := Unclaimed(claims, flags, DatagramsOf(entries[..count]));
            && (fits <==> |selected| <= unclaimedCount && |Flat(selected)| <= totalBytes)
            && (fits ==> Placed(buf[..], msgs[..], selected))
  {
    buf := new char[totalBytes](_ => '\0');
    msgs := new Message[unclaimedCount](_ => Message(0, 0, 0));
    fits := FillMessages(buf, msgs, entries, count, claims, flags, DatagramsOf(entries[..count]));
  }

  /** The first messages are the datagrams of `ds`, end to end from the start of the
      buffer. */
  ghost predicate Placed(buf: Bytes, msgs: seq<Message>, ds: seq<Datagram>) {
    && |ds| <= |msgs| && |Flat(ds)| <= |buf|
    && buf[..|Flat(ds)|] == Flat(ds) && Laid(buf[..|Flat(ds)|], msgs[..|ds|], ds)
  }

  method FillMessages(buf: array<char>, msgs: array<Message>, entries: array<Entry>, count: nat,
                      claims: map<Addr, Peer>, flags: seq<set<Peer>>, ghost ds: seq<Datagram>)
    returns (fits: bool)
    requires count == |ds| == |flags| <= entries.Length
    requires forall i :: 0 <= i < count ==> Filled(entries[i]) && DatagramOf(entries[i]) == ds[i]
    modifies buf, msgs
    ensures var selected := Unclaimed(claims, flags, ds);
            && (fits <==> |selected| <= msgs.Length && |Flat(selected)| <= buf.Length)
            && (fits ==> Placed(buf[..], msgs[..], selected))
  {
    var offset, idx := 0, 0;
    ghost var done: seq<Datagram> := [];
    fits := true;
    for i := 0 to count
      invariant done == Unclaimed(claims, flags[..i], ds[..i])
      invariant idx == |done| && offset == |Flat(done)| && Placed(buf[..], msgs[..], done)
    {
      SelectNext(claims, flags, ds, i);
      fits, offset, idx := ConsiderEntry(buf, msgs, entries[i], claims, flags[i], offset, idx, done);
      done := Extended(claims, flags[i], ds[i], done);
      if !fits {
        return;
      }
    }
    assert ds[..count] == ds && flags[..count] == flags;
  }

  /** What is selected once `d` has been looked at too. */
  ghost function Extended(claims: map<Addr, Peer>, open: set<Peer>, d: Datagram, done: seq<Datagram>): seq<Datagram> {
    if Claimed(claims, open, d) then done else done + [d]
  }

  lemma SelectNext(claims: map<Addr, Peer>, flags: seq<set<Peer>>, ds: seq<Datagram>, i: nat)
    requires |flags| == |ds| && i < |ds|
    ensures var next := Extended(claims, flags[i], ds[i], Unclaimed(claims, flags[..i], ds[..i]));
            && next == Unclaimed(claims, flags[..i + 1], ds[..i + 1])
            && |next| <= |Unclaimed(claims, flags, ds)| && |Flat(next)| <= |Flat(Unclaimed(claims, flags, ds))|
  {
    assert ds[..i + 1][..i] == ds[..i] && flags[..i + 1][..i] == flags[..i];
    UnclaimedMonotone(claims, flags, ds, i + 1);
  }

  /** One trip through the second pass, after the datagrams in `done`. */
  method ConsiderEntry(buf: array<char>, msgs: array<Message>, e: Entry, claims: map<Addr, Peer>, open: set<Peer>,
                       offset: nat, idx: nat, ghost done: seq<Datagram>)
    returns (ok: bool, offset': nat, idx': nat)
    requires Filled(e) && idx == |done| && offset == |Flat(done)| && Placed(buf[..], msgs[..], done)
    modifies buf, msgs
    ensures var next := Extended(claims, open, DatagramOf(e), done);
            && (ok <==> |next| <= msgs.Length && |Flat(next)| <= buf.Length)
            && (ok ==> idx' == |next| && offset' == |Flat(next)| && Placed(buf[..], msgs[..], next))
  {
    if e.addr in claims && claims[e.addr] in open {
      return true, offset, idx;
    }
    FlatAppend(done, DatagramOf(e));
    if idx == msgs.Length || offset + e.transferred > buf.Length {
      return false, offset, idx;
    }
    ghost var front, laid := buf[..offset], msgs[..idx];
    assert buf[..][..offset] == front && msgs[..][..idx] == laid;
    PlaceMessage(buf, msgs, offset, idx, e, done);
    assert buf[..][..offset + e.transferred] == buf[..offset + e.transferred];
    assert msgs[..][..idx + 1] == msgs[..idx + 1];
    return true, offset + e.transferred, idx + 1;
  }

  /** memcpy of the first `n` bytes of `src` to `buf` at `offset`. */
  method CopyInto(buf: array<char>, offset: nat, src: Bytes, n: nat)
    requires n <= |src| && offset + n <= buf.Length
    modifies buf
    ensures buf[..offset + n] == old(buf[..offset]) + src[..n]
    ensures buf[offset + n..] == old(buf[offset + n..])
  {
    forall j | 0 <= j < n {
      buf[offset + j] := src[j];
    }
  }

  lemma UnclaimedLast(claims: map<Addr, Peer>, flags: seq<set<Peer>>, ds: seq<Datagram>)
    requires |flags| == |ds| > 0
    ensures var n := |ds| - 1;
            |Unclaimed(claims, flags[..n], ds[..n])| <= |Unclaimed(claims, flags, ds)|
            && |Flat(Unclaimed(claims, flags[..n], ds[..n]))| <= |Flat(Unclaimed(claims, flags, ds))|
  {
    var n := |ds| - 1;
    var most := Unclaimed(claims, flags[..n], ds[..n]);
    FlatAppend(most, ds[n]);
    assert most + [] == most;
  }

  /** What is selected from a prefix fits into what is selected from the whole. */
  lemma {:induction false} UnclaimedMonotone(claims: map<Addr, Peer>, flags: seq<set<Peer>>, ds: seq<Datagram>, n: nat)
    requires |flags| == |ds| && n <= |ds|
    ensures |Unclaimed(claims, flags[..n], ds[..n])| <= |Unclaimed(claims, flags, ds)|
    ensures |Flat(Unclaimed(claims, flags[..n], ds[..n]))| <= |Flat(Unclaimed(claims, flags, ds))|
    decreases |ds|
  {
    if n < |ds| {
      var most, early := ds[..|ds| - 1], flags[..|ds| - 1];
      UnclaimedMonotone(claims, early, most, n);
      assert most[..n] == ds[..n] && early[..n] == flags[..n];
      UnclaimedLast(claims, flags, ds);
    } else {
      assert ds[..n] == ds && flags[..n] == flags;
    }
  }

  /** The path with an on_data_batch callback, with its own loads in each pass. It
      stays within what it allocated exactly if it has nothing to hand over or no
      peer is relinquished between the two loads for one of its datagrams; then it
      agrees with the per-datagram path: same claims left, same deliveries, and
      messages whose slices are the same datagrams in order, filling the buffer. */
  method BatchPath(entries: array<Entry>, count: nat, claims0: map<Addr, Peer>,
                   first: seq<set<Peer>>, second: seq<set<Peer>>, demux: bool)
    returns (fits: bool, claims: map<Addr, Peer>, buf: array<char>, msgs: array<Message>, delivered: seq<Delivery>)
    requires count == |first| == |second| <= entries.Length && forall i :: 0 <= i < count ==> Filled(entries[i])
    requires Falling(first + second)
    ensures fresh(buf) && fresh(msgs)
    ensures var r := RouteAll(Routed(claims0, [], []), first, demux, DatagramsOf(entries[..count]));
            && claims == r.claims && delivered == r.peers
            && (fits <==> r.parent == [] || Steady(claims0, first, second, DatagramsOf(entries[..count])))
            && (fits ==> buf[..] == Flat(r.parent) && Laid(buf[..], msgs[..], r.parent))
  {
    ghost var ds := DatagramsOf(entries[..count]);
    var totalBytes, unclaimedCount;
    claims, delivered, totalBytes, unclaimedCount := FirstPass(entries, count, claims0, first, demux);
    SecondPassIff(claims0, first, second, demux, ds);
    if unclaimedCount > 0 {
      fits, buf, msgs := SecondPass(entries, count, claims, second, totalBytes, unclaimedCount);
      if fits {
        WholePlaced(buf[..], msgs[..], Unclaimed(claims, second, ds));
      }
    } else {
      fits, buf, msgs := true, new char[0], new Message[0];
    }
  }

  lemma WholePlaced(buf: Bytes, msgs: seq<Message>, ds: seq<Datagram>)
    requires Placed(buf, msgs, ds) && |msgs| == |ds| && |buf| == |Flat(ds)|
    ensures buf == Flat(ds) && Laid(buf, msgs, ds)
  {
    assert buf[..|Flat(ds)|] == buf && msgs[..|ds|] == msgs;
  }
}
