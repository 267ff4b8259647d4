/** The kqueue dispatcher's incremental interest tracking.

kqueue keeps one registration per descriptor and filter. The dispatcher issues
only the additions and deletions between the old and the new mask; the plain
meaning of its interface is that a mask is replaced as a whole.
*/
module Kqueue {

  type Fd = nat
  datatype Interest = Interest(read: bool, write: bool)
  datatype Filter = ReadFilter | WriteFilter
  datatype Knote = Knote(fd: Fd, filter: Filter)
  datatype Change = AddNote(note: Knote) | DeleteNote(note: Knote)

  /** The kernel's registrations after kevent; deleting an absent one is an error
      that stops the list. */
  datatype KeventResult = KeventResult(notes: set<Knote>, ok: bool)

  function Kevent(notes: set<Knote>, changes: seq<Change>): KeventResult
    decreases |changes|
  {
    if changes == [] then KeventResult(notes, true)
    else
      match changes[0]
      case AddNote(n) => Kevent(notes + {n}, changes[1..])
      case DeleteNote(n) => if n in notes then Kevent(notes - {n}, changes[1..]) else KeventResult(notes, false)
  }

  predicate Wants(i: Interest, f: Filter) {
    if f.ReadFilter? then i.read else i.write
  }

  /** The dispatcher's record and the kernel's agree on every descriptor and filter. */
  ghost predicate Agree(notes: set<Knote>, interests: map<Fd, Interest>) {
    forall n: Knote :: n in notes <==> n.fd in interests && Wants(interests[n.fd], n.filter)
  }

  // ---- the plain meaning ---------------------------------------------------------

  datatype Action = Add(fd: Fd, interest: Interest) | Modify(fd: Fd, interest: Interest) | Remove(fd: Fd)

  function Replace(masks: map<Fd, Interest>, a: Action): map<Fd, Interest> {
    match a
    case Add(fd, i) => masks[fd := i]
    case Modify(fd, i) => masks[fd := i]
    case Remove(fd) => masks - {fd}
  }

  function ReplaceAll(masks: map<Fd, Interest>, acts: seq<Action>): map<Fd, Interest> {
    if acts == [] then masks else Replace(ReplaceAll(masks, acts[..|acts| - 1]), acts[|acts| - 1])
  }

  /** Whether add() is used as documented, on descriptors that are not tracked. */
  predicate AddsUntracked(masks: map<Fd, Interest>, acts: seq<Action>) {
    acts == [] ||
    (AddsUntracked(masks, acts[..|acts| - 1]) &&
     (acts[|acts| - 1].Add? ==> acts[|acts| - 1].fd !in ReplaceAll(masks, acts[..|acts| - 1])))
  }

  // ---- the change lists -------------------------------------------------------------

  /** The change for one filter in modify(): an addition, a deletion, or none. */
  function Delta(fd: Fd, f: Filter, had: bool, want: bool): seq<Change> {
    if want && !had then [AddNote(Knote(fd, f))]
    else if !want && had then [DeleteNote(Knote(fd, f))]
    else []
  }

  function ModifyChanges(fd: Fd, old_: Interest, new_: Interest): seq<Change> {
    Delta(fd, ReadFilter, old_.read, new_.read) + Delta(fd, WriteFilter, old_.write, new_.write)
  }

  lemma {:induction false} KeventConcat(notes: set<Knote>, a: seq<Change>, b: seq<Change>)
    ensures var r := Kevent(notes, a);
            Kevent(notes, a + b) == if r.ok then Kevent(r.notes, b) else r
    decreases |a|
  {
    if a == [] {
      assert a + b == b;
    } else {
      assert (a + b)[1..] == a[1..] + b;
      match a[0]
      case AddNote(n) => KeventConcat(notes + {n}, a[1..], b);
      case DeleteNote(n) => if n in notes { KeventConcat(notes - {n}, a[1..], b); }
    }
  }

  lemma DeltaEffect(notes: set<Knote>, fd: Fd, f: Filter, had: bool, want: bool)
    requires had <==> Knote(fd, f) in notes
    ensures var r := Kevent(notes, Delta(fd, f, had, want));
            r.ok && r.notes == if want then notes + {Knote(fd, f)} else notes - {Knote(fd, f)}
  {
    var n := Knote(fd, f);
    if want && !had {
      assert [AddNote(n)][1..] == [];
    } else if !want && had {
      assert [DeleteNote(n)][1..] == [];
    } else if want {
      assert notes + {n} == notes;
    } else {
      assert notes - {n} == notes;
    }
  }

  /** The change list of modify() is accepted by the kernel and turns the old mask
      of the descriptor into the new one. */
  lemma ModifyEffect(notes: set<Knote>, interests: map<Fd, Interest>, fd: Fd, i: Interest)
    requires Agree(notes, interests)
    ensures var was := if fd in interests then interests[fd] else Interest(false, false);
            var r := Kevent(notes, ModifyChanges(fd, was, i));
            r.ok && Agree(r.notes, interests[fd := i])
  {
    var was := if fd in interests then interests[fd] else Interest(false, false);
    DeltaEffect(notes, fd, ReadFilter, was.read, i.read);
    var mid := Kevent(notes, Delta(fd, ReadFilter, was.read, i.read)).notes;
    DeltaEffect(mid, fd, WriteFilter, was.write, i.write);
    KeventConcat(notes, Delta(fd, ReadFilter, was.read, i.read), Delta(fd, WriteFilter, was.write, i.write));
  }

  /** It says nothing the kernel has already: each addition is of a filter that is not
      registered, each deletion of one that is. */
  lemma OnlyDifferences(notes: set<Knote>, interests: map<Fd, Interest>, fd: Fd, i: Interest)
    requires Agree(notes, interests)
    ensures var was := if fd in interests then interests[fd] else Interest(false, false);
            forall c :: c in ModifyChanges(fd, was, i) ==> (c.AddNote? <==> c.note !in notes)
  {
    assert Knote(fd, ReadFilter) in notes <==> fd in interests && interests[fd].read;
    assert Knote(fd, WriteFilter) in notes <==> fd in interests && interests[fd].write;
  }

  /** The same for remove(). */
  lemma RemoveEffect(notes: set<Knote>, interests: map<Fd, Interest>, fd: Fd)
    requires Agree(notes, interests) && fd in interests
    ensures var r := Kevent(notes, ModifyChanges(fd, interests[fd], Interest(false, false)));
            r.ok && Agree(r.notes, interests - {fd})
  {
    ModifyEffect(notes, interests, fd, Interest(false, false));
  }

  lemma AddEffect(notes: set<Knote>, fd: Fd, i: Interest)
    ensures var r := Kevent(notes, ModifyChanges(fd, Interest(false, false), i));
            && r.ok
            && (forall n: Knote :: n in r.notes <==> n in notes || (n.fd == fd && Wants(i, n.filter)))
  {
    var a, b := Delta(fd, ReadFilter, false, i.read), Delta(fd, WriteFilter, false, i.write);
    KeventConcat(notes, a, b);
    assert [AddNote(Knote(fd, ReadFilter))][1..] == [];
    assert [AddNote(Knote(fd, WriteFilter))][1..] == [];
    var mid := if i.read then notes + {Knote(fd, ReadFilter)} else notes;
    assert Kevent(notes, a) == KeventResult(mid, true);
    assert Kevent(mid, b).notes == if i.write then mid + {Knote(fd, WriteFilter)} else mid;
    forall n: Knote | n.fd == fd ensures n == Knote(fd, ReadFilter) || n == Knote(fd, WriteFilter) {
      match n.filter
      case ReadFilter =>
      case WriteFilter =>
    }
  }

  /** add() only ever adds filters, so it keeps the agreement exactly if the
      descriptor was not tracked or had no interest that the new mask lacks. */
  lemma AddAgreesIff(notes: set<Knote>, interests: map<Fd, Interest>, fd: Fd, i: Interest)
    requires Agree(notes, interests)
    ensures var after := Kevent(notes, ModifyChanges(fd, Interest(false, false), i)).notes;
            Agree(after, interests[fd := i]) <==>
            (fd in interests ==> (interests[fd].read ==> i.read) && (interests[fd].write ==> i.write))
  {
    AddEffect(notes, fd, i);
    var after := Kevent(notes, ModifyChanges(fd, Interest(false, false), i)).notes;
    assert Knote(fd, ReadFilter) in notes <==> fd in interests && interests[fd].read;
    assert Knote(fd, WriteFilter) in notes <==> fd in interests && interests[fd].write;
    assert Knote(fd, ReadFilter) in after <==> Knote(fd, ReadFilter) in notes || i.read;
    assert Knote(fd, WriteFilter) in after <==> Knote(fd, WriteFilter) in notes || i.write;
  }

  // ---- arbitrary calls -----------------------------------------------------------------

  /** The kernel watches at least what the record says. */
  ghost predicate Covers(notes: set<Knote>, interests: map<Fd, Interest>) {
    forall n: Knote :: n.fd in interests && Wants(interests[n.fd], n.filter) ==> n in notes
  }

  function RecordedMask(interests: map<Fd, Interest>, fd: Fd): Interest {
    if fd in interests then interests[fd] else Interest(false, false)
  }

  /** The changes a call issues. */
  function Issued(interests: map<Fd, Interest>, a: Action): seq<Change> {
    match a
    case Add(fd, i) => ModifyChanges(fd, Interest(false, false), i)
    case Modify(fd, i) => ModifyChanges(fd, RecordedMask(interests, fd), i)
    case Remove(fd) => ModifyChanges(fd, RecordedMask(interests, fd), Interest(false, false))
  }

  function NotesAfter(notes: set<Knote>, interests: map<Fd, Interest>, acts: seq<Action>): set<Knote> {
    if acts == [] then notes
    else
      var before := acts[..|acts| - 1];
      Kevent(NotesAfter(notes, interests, before), Issued(ReplaceAll(interests, before), acts[|acts| - 1])).notes
  }

  lemma DeltaCovers(notes: set<Knote>, fd: Fd, f: Filter, had: bool, want: bool)
    requires had ==> Knote(fd, f) in notes
    ensures var r := Kevent(notes, Delta(fd, f, had, want));
            r.ok && (want ==> Knote(fd, f) in r.notes) && forall n: Knote :: n != Knote(fd, f) ==> (n in r.notes <==> n in notes)
  {
    var n := Knote(fd, f);
    if want && !had {
      assert [AddNote(n)][1..] == [];
    } else if !want && had {
      assert [DeleteNote(n)][1..] == [];
    }
  }

  lemma MaskCovers(notes: set<Knote>, fd: Fd, was: Interest, i: Interest)
    requires forall f :: Wants(was, f) ==> Knote(fd, f) in notes
    ensures var r := Kevent(notes, ModifyChanges(fd, was, i));
            && r.ok && (forall f :: Wants(i, f) ==> Knote(fd, f) in r.notes)
            && (forall n: Knote :: n.fd != fd ==> (n in r.notes <==> n in notes))
  {
    var a, b := Delta(fd, ReadFilter, was.read, i.read), Delta(fd, WriteFilter, was.write, i.write);
    assert Wants(was, ReadFilter) == was.read && Wants(was, WriteFilter) == was.write;
    DeltaCovers(notes, fd, ReadFilter, was.read, i.read);
    DeltaCovers(Kevent(notes, a).notes, fd, WriteFilter, was.write, i.write);
    KeventConcat(notes, a, b);
    forall f | Wants(i, f) ensures Knote(fd, f) in Kevent(notes, a + b).notes {
      match f
      case ReadFilter =>
      case WriteFilter =>
    }
  }

  /** Whatever is called on whatever descriptors, tracked or not, the kernel accepts
      every change and never watches less than the masks last asked for. */
  lemma {:induction false} AnyCallsCovered(notes: set<Knote>, interests: map<Fd, Interest>, acts: seq<Action>)
    requires Covers(notes, interests)
    ensures Covers(NotesAfter(notes, interests, acts), ReplaceAll(interests, acts))
    ensures acts != [] ==>
              var before := acts[..|acts| - 1];
              Kevent(NotesAfter(notes, interests, before), Issued(ReplaceAll(interests, before), acts[|acts| - 1])).ok
  {
    if acts != [] {
      var before, last := acts[..|acts| - 1], acts[|acts| - 1];
      AnyCallsCovered(notes, interests, before);
      var now, masks := NotesAfter(notes, interests, before), ReplaceAll(interests, before);
      var was := if last.Add? then Interest(false, false) else RecordedMask(masks, last.fd);
      forall f | Wants(was, f) ensures Knote(last.fd, f) in now {}
      MaskCovers(now, last.fd, was, if last.Remove? then Interest(false, false) else last.interest);
      forall n: Knote | n.fd in Replace(masks, last) && Wants(Replace(masks, last)[n.fd], n.filter)
        ensures n in NotesAfter(notes, interests, acts)
      {
        if n.fd == last.fd { assert n == Knote(last.fd, n.filter); }
      }
    }
  }

  // ---- the dispatcher ------------------------------------------------------------------

  class Dispatcher {
    var notes: set<Knote>
    var interests: map<Fd, Interest>
    var callbacks: map<Fd, nat>

    constructor ()
      ensures notes == {} && interests == map[] && callbacks == map[]
    {
      notes, interests, callbacks := {}, map[], map[];
    }

    /** The system call: applies the first n of the changes. */
    method CallKevent(changes: array<Change>, n: nat) returns (ok: bool)
      requires n <= changes.Length
      modifies `notes
      ensures var r := Kevent(old(notes), changes[..n]); notes == r.notes && ok == r.ok
    {
      var i := 0;
      ghost var before := notes;
      while i < n
        invariant 0 <= i <= n
        invariant Kevent(before, changes[..n]) == Kevent(notes, changes[i..n])
      {
        assert changes[i..n][1..] == changes[i + 1..n];
        match changes[i] {
          case AddNote(note) => notes := notes + {note};
          case DeleteNote(note) =>
            if note !in notes {
              return false;
            }
            notes := notes - {note};
        }
        i := i + 1;
      }
      return true;
    }

    /** Registers a descriptor; the record agrees with the kernel afterwards
        exactly if no interest recorded before is missing from the new mask. */
    method AddSocket(fd: Fd, interest: Interest, callback: nat) returns (ok: bool)
      requires Agree(notes, interests)
      modifies this
      ensures ok
      ensures Agree(notes, interests) <==>
              (fd in old(interests) ==>
                 (old(interests)[fd].read ==> interest.read) && (old(interests)[fd].write ==> interest.write))
      ensures interests == old(interests)[fd := interest] && callbacks == old(callbacks)[fd := callback]
    {
      var changes := new Change[2](_ => AddNote(Knote(fd, ReadFilter)));
      var n := 0;
      if interest.read {
        changes[n] := AddNote(Knote(fd, ReadFilter));
        n := n + 1;
      }
      if interest.write {
        changes[n] := AddNote(Knote(fd, WriteFilter));
        n := n + 1;
      }
      assert changes[..n] == ModifyChanges(fd, Interest(false, false), interest);
      AddAgreesIff(notes, interests, fd, interest);
      AddEffect(notes, fd, interest);
      ok := CallKevent(changes, n);
      if !ok {
        return;
      }
      callbacks := callbacks[fd := callback];
      interests := interests[fd := interest];
    }

    /** Replaces a mask by issuing only the difference; the kernel never objects. */
    method ModifyInterest(fd: Fd, interest: Interest) returns (ok: bool)
      requires Agree(notes, interests)
      modifies this
      ensures ok && Agree(notes, interests)
      ensures interests == old(interests)[fd := interest] && callbacks == old(callbacks)
    {
      var was := if fd in interests then interests[fd] else Interest(false, false);
      var changes := new Change[2](_ => AddNote(Knote(fd, ReadFilter)));
      var n := 0;
      if interest.read && !was.read {
        changes[n] := AddNote(Knote(fd, ReadFilter));
        n := n + 1;
      } else if !interest.read && was.read {
        changes[n] := DeleteNote(Knote(fd, ReadFilter));
        n := n + 1;
      }
      if interest.write && !was.write {
        changes[n] := AddNote(Knote(fd, WriteFilter));
        n := n + 1;
      } else if !interest.write && was.write {
        changes[n] := DeleteNote(Knote(fd, WriteFilter));
        n := n + 1;
      }
      assert changes[..n] == ModifyChanges(fd, was, interest);
      ModifyEffect(notes, interests, fd, interest);
      ok := CallKevent(changes, n);
      if !ok {
        return;
      }
      interests := interests[fd := interest];
    }

    /** Deletes exactly the registered filters and forgets the descriptor. */
    method RemoveSocket(fd: Fd)
      requires Agree(notes, interests)
      modifies this
      ensures Agree(notes, interests)
      ensures interests == old(interests) - {fd} && callbacks == old(callbacks) - {fd}
    {
      if fd in interests {
        var changes := new Change[2](_ => DeleteNote(Knote(fd, ReadFilter)));
        var n := 0;
        if interests[fd].read {
          changes[n] := DeleteNote(Knote(fd, ReadFilter));
          n := n + 1;
        }
        if interests[fd].write {
          changes[n] := DeleteNote(Knote(fd, WriteFilter));
          n := n + 1;
        }
        assert changes[..n] == ModifyChanges(fd, interests[fd], Interest(false, false));
        RemoveEffect(notes, interests, fd);
        var _ := CallKevent(changes, n);
        interests := interests - {fd};
      }
      callbacks := callbacks - {fd};
    }
  }

  /** The incremental dispatcher refines mask replacement: after any sequence of
      calls with add() on untracked descriptors, the kernel's registrations are
      exactly the filters of the masks that replacing whole masks would leave. */
  method RunCalls(d: Dispatcher, acts: seq<Action>)
    requires Agree(d.notes, d.interests) && AddsUntracked(d.interests, acts)
    modifies d
    ensures d.interests == ReplaceAll(old(d.interests), acts)
    ensures Agree(d.notes, ReplaceAll(old(d.interests), acts))
  {
    ghost var masks := d.interests;
    for i := 0 to |acts|
      invariant Agree(d.notes, d.interests) && d.interests == ReplaceAll(masks, acts[..i])
    {
      assert acts[..i + 1][..i] == acts[..i];
      PrefixUntracked(masks, acts, i + 1);
      match acts[i] {
        case Add(fd, interest) => var _ := d.AddSocket(fd, interest, 0);
        case Modify(fd, interest) => var _ := d.ModifyInterest(fd, interest);
        case Remove(fd) => d.RemoveSocket(fd);
      }
    }
    assert acts[..|acts|] == acts;
  }

  lemma {:induction false} PrefixUntracked(masks: map<Fd, Interest>, acts: seq<Action>, n: nat)
    requires AddsUntracked(masks, acts) && n <= |acts|
    ensures AddsUntracked(masks, acts[..n])
  {
    if n < |acts| {
      PrefixUntracked(masks, acts[..|acts| - 1], n);
      assert acts[..|acts| - 1][..n] == acts[..n];
    } else {
      assert acts[..n] == acts;
    }
  }
}
