/** The two-region ring buffer of bipbuffer.c as a queue of bytes, and its clients: the logger's
    skip message and the loops that drain whole entries. */
module BipBuffer {
  import opened Octets
  import opened Sums
  import opened Flatten

  class Bip {
    const data: array<byte>
    var aStart: nat
    var aEnd: nat
    var bEnd: nat
    var bInUse: bool

    /** Region A is data[aStart..aEnd]; region B, when in use, is data[..bEnd], below region A; an
        empty region A means an empty buffer.  Region B is in use exactly while there is more room below
        region A than above it. */
    ghost predicate Valid()
      reads this
    {
      && aStart <= aEnd <= data.Length
      && (bInUse ==> bEnd <= aStart && aStart < aEnd)
      && (!bInUse ==> bEnd == 0)
      && (aStart == aEnd ==> aStart == 0)
      && (bInUse <==> data.Length - aEnd < aStart)
    }

    /** How many cells in a row can be had: behind region B while it holds bytes, and otherwise above or
        below region A, whichever is more. */
    ghost function Room(): nat
      requires Valid()
      reads this
    {
      if bEnd > 0 then aStart - bEnd
      else if data.Length - aEnd < aStart then aStart
      else data.Length - aEnd
    }

    /** An empty buffer takes anything up to its size. */
    lemma EmptyTakesAll()
      requires Valid() && Contents() == []
      ensures Room() == data.Length
    {
      assert |A()| == 0;
    }

    ghost function A(): seq<byte>
      requires Valid()
      reads this, data
    {
      data[aStart..aEnd]
    }

    ghost function B(): seq<byte>
      requires Valid()
      reads this, data
    {
      data[..bEnd]
    }

    /** The queue: region A, then region B. */
    ghost function Contents(): seq<byte>
      requires Valid()
      reads this, data
    {
      A() + B()
    }

    constructor (size: nat)
      ensures Valid() && Contents() == [] && data.Length == size && Room() == size && fresh(data)
    {
      data := new byte[size](_ => 0);
      aStart, aEnd, bEnd, bInUse := 0, 0, 0, false;
    }

    // ------------------------------------------------------------ reading the state

    /** bipbuf_unused: in a queue, the room there is. */
    function Unused(): (n: int)
      reads this
      ensures Valid() ==> n == Room()
    {
      if bInUse then aStart - bEnd else data.Length - aEnd
    }

    method Used() returns (n: nat)
      requires Valid()
      ensures n == |Contents()|
    {
      n := (aEnd - aStart) + bEnd;
    }

    method IsEmpty() returns (b: bool)
      requires Valid()
      ensures b <==> Contents() == []
    {
      b := aStart == aEnd;
    }

    /** Where the next bytes go. */
    function Front(): nat
      reads this
    {
      if bInUse then bEnd else aEnd
    }

    /** The room is at the front. */
    lemma Place(n: nat)
      requires Valid() && n <= Room()
      ensures Front() + n <= data.Length && (aEnd <= Front() || (bEnd <= Front() && Front() + n <= aStart))
    {
    }

    /** A place for n bytes, if there is one in a row. */
    method Request(n: nat) returns (at: Option<nat>)
      requires Valid()
      ensures at.Some? <==> n <= Room()
      ensures at.Some? ==>
        && at.value == Front() && at.value + n <= data.Length
        && (aEnd <= at.value || (bEnd <= at.value && at.value + n <= aStart))
    {
      if Unused() < n {
        return None;
      }
      return Some(if bInUse then bEnd else aEnd);
    }

    /** All of region A, in place: the oldest bytes. */
    method PeekAll() returns (span: Option<(nat, nat)>)
      requires Valid()
      ensures span.None? <==> Contents() == []
      ensures span.Some? ==>
        && span.value.0 + span.value.1 <= data.Length && 0 < span.value.1 <= |Contents()|
        && data[span.value.0..span.value.0 + span.value.1] == Contents()[..span.value.1]
        && span.value == (aStart, aEnd - aStart)
    {
      if aStart == aEnd {
        return None;
      }
      return Some((aStart, aEnd - aStart));
    }

    // ------------------------------------------------------------ producers

    /** A producer writes into the place it requested; nothing queued changes. */
    method Write(bytes: seq<byte>)
      requires Valid() && |bytes| <= Room()
      modifies data
      ensures Valid() && A() == old(A()) && B() == old(B())
      ensures data[Front()..Front() + |bytes|] == bytes
    {
      hide Room;
      var at := Front();
      assert at + |bytes| <= data.Length && (aEnd <= at || (bEnd <= at && at + |bytes| <= aStart)) by {
        Place(|bytes|);
      }
      forall i | 0 <= i < |bytes| {
        data[at + i] := bytes[i];
      }
      assert A() == old(A());
      assert B() == old(B());
    }

    /** Turn on region B when there is more room below region A than above it. */
    method CheckForSwitch()
      requires aStart <= aEnd <= data.Length && bEnd <= aStart && (aStart == aEnd ==> aStart == 0)
      requires if bInUse then data.Length - aEnd < aStart else bEnd == 0
      modifies this`bInUse
      ensures Valid() && (old(bInUse) ==> bInUse)
    {
      if data.Length - aEnd < aStart - bEnd {
        bInUse := true;
      }
    }

    /** Queue the n bytes that stand at the front, at the end of the region in use. */
    method Push(n: nat) returns (pushed: nat)
      requires Valid()
      modifies this`aEnd, this`bEnd, this`bInUse
      ensures Valid() && aStart == old(aStart) && old(aEnd) <= aEnd && (old(bInUse) ==> bInUse)
      ensures pushed == (if old(Room()) < n then 0 else n)
      ensures A() == old(A()) + (if old(Room()) >= n && !old(bInUse) then old(data[Front()..Front() + n]) else [])
      ensures B() == old(B()) + (if old(Room()) >= n && old(bInUse) then old(data[Front()..Front() + n]) else [])
      ensures Room() >= old(Room()) - pushed
    {
      if Unused() < n {
        assert A() + [] == A() && B() + [] == B();
        return 0;
      }
      if bInUse {
        bEnd := bEnd + n;
      } else {
        aEnd := aEnd + n;
      }
      CheckForSwitch();
      assert A() == old(A()) + if old(bInUse) then [] else old(data[aEnd..aEnd + n]);
      assert B() == old(B()) + if old(bInUse) then old(data[bEnd..bEnd + n]) else [];
      return n;
    }

    /** Copy bytes in and queue them, or refuse them all.  What a reader has peeked stays. */
    method Offer(bytes: seq<byte>) returns (taken: nat)
      requires Valid()
      modifies this`aEnd, this`bEnd, this`bInUse, data
      ensures Valid() && aStart == old(aStart) && old(A()) <= A()
      ensures taken == (if old(Room()) < |bytes| then 0 else |bytes|)
      ensures Contents() == old(Contents()) + if old(Room()) < |bytes| then [] else bytes
      ensures Room() >= old(Room()) - taken
    {
      hide Room;
      if Unused() < |bytes| {
        assert Contents() + [] == Contents();
        return 0;
      }
      Place(|bytes|);
      Write(bytes);
      taken := Push(|bytes|);
    }

    // ------------------------------------------------------------ the consumer

    /** Drop n bytes from region A.  The code checks n only against the size of the whole buffer: the
        buffer is still a queue afterwards exactly when n is within region A. */
    method Poll(n: nat) returns (ok: bool)
      requires Valid()
      modifies this`aStart, this`aEnd, this`bEnd, this`bInUse
      ensures ok <==> old(aStart < aEnd && aStart + n <= data.Length)
      ensures !ok ==> Valid() && Contents() == old(Contents())
      ensures ok ==> (Valid() <==> n <= old(aEnd - aStart))
      ensures ok && Valid() ==> Contents() == old(Contents())[n..] && Room() >= old(Room())
      ensures ok && n < old(|A()|) ==> A() == old(A())[n..] && B() == old(B()) && (old(bInUse) ==> bInUse)
      ensures ok && n == old(|A()|) ==> A() == old(B()) && B() == [] && !bInUse
    {
      if aStart == aEnd {
        return false;
      }
      if data.Length < aStart + n {
        return false;
      }
      ghost var all := Contents();
      aStart := aStart + n;
      if aStart == aEnd {
        if bInUse {
          aStart := 0;
          aEnd := bEnd;
          bEnd := 0;
          bInUse := false;
        } else {
          aStart := 0;
          aEnd := 0;
        }
      }
      if data.Length - aEnd < aStart - bEnd {
        bInUse := true;
      }
      ok := true;
    }
  }

  /** Two bytes queued, five polled: accepted, and no longer a queue. */
  method PollsTooMuch() returns (w: Bip, ok: bool)
    ensures fresh(w) && ok && !w.Valid()
  {
    w := new Bip(8);
    var taken := w.Offer([1, 2]);
    assert |w.Contents()| == 2;
    ok := w.Poll(5);
  }

  // ---------------------------------------------------------------- the logger's watcher buffers

  /** After a place for n + 128 bytes was found and a skip message of fewer than 128 bytes queued, the
      line of n bytes always goes in, whether or not the buffer has switched regions in between. */
  method LogLine(w: Bip, skipped: seq<byte>, line: seq<byte>) returns (sent: bool)
    requires w.Valid() && |skipped| < 128
    modifies w, w.data
    ensures w.Valid()
    ensures sent <==> old(w.Room()) >= |line| + 128
    ensures w.Contents() == if sent then old(w.Contents()) + skipped + line else old(w.Contents())
  {
    var at := w.Request(|line| + 128);
    if at.None? {
      return false;
    }
    if skipped != [] {
      Say(w, skipped);
    }
    var taken := w.Offer(line);
    assert taken == |line|;
    return true;
  }

  /** Print a message into the requested place, then queue it. */
  method Say(w: Bip, message: seq<byte>)
    requires w.Valid() && |message| <= w.Room()
    modifies w, w.data
    ensures w.Valid() && w.Contents() == old(w.Contents()) + message
    ensures w.Room() >= old(w.Room()) - |message|
  {
    hide w.Room;
    w.Write(message);
    var pushed := w.Push(|message|);
  }

  // ---------------------------------------------------------------- queues of whole entries

  ghost predicate Nonempty(es: seq<seq<byte>>) {
    forall i :: 0 <= i < |es| ==> es[i] != []
  }

  /** A buffer that is fed entry by entry: region boundaries are entry boundaries. */
  class EntryQueue {
    const w: Bip
    ghost var inA: seq<seq<byte>>
    ghost var inB: seq<seq<byte>>

    ghost predicate Valid()
      reads this, w, w.data
    {
      && w.Valid() && Nonempty(inA) && Nonempty(inB)
      && Flat(inA) == w.A() && Flat(inB) == w.B()
      && (!w.bInUse ==> inB == [])
    }

    /** The entries queued, oldest first. */
    ghost function Entries(): seq<seq<byte>>
      reads this
    {
      inA + inB
    }

    constructor (buffer: Bip)
      requires buffer.Valid() && buffer.Contents() == []
      ensures Valid() && Entries() == [] && w == buffer
    {
      w := buffer;
      inA, inB := [], [];
    }

    /** Queue a whole entry or nothing. */
    method Enqueue(e: seq<byte>) returns (ok: bool)
      requires Valid() && e != []
      modifies this, w, w.data
      ensures Valid() && Entries() == if ok then old(Entries()) + [e] else old(Entries())
      ensures ok <==> old(w.Room()) >= |e|
      ensures old(inA) <= inA
    {
      hide Flat;
      if w.Unused() < |e| {
        return false;
      }
      ghost var b := w.bInUse;
      w.Write(e);
      var pushed := w.Push(|e|);
      if b {
        FlatSnoc(inB, e);
        inB := inB + [e];
      } else {
        FlatSnoc(inA, e);
        inA := inA + [e];
      }
      return true;
    }

    /** Read the entries of region A one after the other, without taking them out.  `sizeAt` is how a
        reader tells the length of the entry that starts a stretch of bytes: a constant for the bump
        buffers, a header field for the log buffers. */
    method Read(sizeAt: seq<byte> -> nat) returns (size: nat, read: seq<seq<byte>>)
      requires Valid() && SelfSized(inA, sizeAt)
      ensures read == inA && size == |w.A()|
    {
      hide Flat;
      var span := w.PeekAll();
      FlatNone<byte>();
      if span.None? {
        EmptyFlat(inA);
        return 0, [];
      }
      size, read := span.value.1, [];
      var bytes := w.data[span.value.0..span.value.0 + size];
      assert bytes == w.A();
      read := ReadAll(bytes, sizeAt, inA);
    }

    /** Take the k oldest entries out, by the number of bytes they make up. */
    method Drop(size: nat, ghost k: nat) returns (ok: bool)
      requires Valid() && 0 < k <= |inA| && size == |Flat(inA[..k])|
      modifies this, w
      ensures ok && Valid() && Entries() == old(Entries())[k..]
    {
      hide Flat;
      PrefixFlat(inA, k);
      ghost var a, b := inA, inB;
      ok := w.Poll(size);
      if k == |a| {
        assert a[..k] == a;
        inA, inB := b, [];
        FlatNone<byte>();
      } else {
        RestFlat(a, k);
        inA := a[k..];
      }
    }
  }

  /** Step from entry to entry: the walk sees each one whole and ends exactly at the end. */
  method ReadAll(bytes: seq<byte>, sizeAt: seq<byte> -> nat, ghost es: seq<seq<byte>>) returns (read: seq<seq<byte>>)
    requires Nonempty(es) && SelfSized(es, sizeAt) && Flat(es) == bytes
    ensures read == es
  {
    hide Flat, SelfSized, Nonempty;
    read := [];
    var pos := 0;
    ghost var i := 0;
    FlatNone<byte>();
    assert es[..0] == [];
    while pos < |bytes|
      invariant 0 <= i <= |es| && pos == |Flat(es[..i])| <= |bytes| && read == es[..i]
      decreases |bytes| - pos
    {
      NotAllYet(es, i);
      EntryAt(es, i, bytes, sizeAt);
      var n := sizeAt(bytes[pos..]);
      read := read + [bytes[pos..pos + n]];
      pos := pos + n;
      i := i + 1;
    }
    AllRead(es, i);
  }

  /** A reader that sees an entry and anything after it finds the entry's length. */
  ghost predicate SelfSized(es: seq<seq<byte>>, sizeAt: seq<byte> -> nat) {
    forall i, rest :: 0 <= i < |es| ==> sizeAt(es[i] + rest) == |es[i]|
  }

  lemma EmptyFlat(es: seq<seq<byte>>)
    requires Nonempty(es) && Flat(es) == []
    ensures es == []
  {
  }

  lemma EntryAt(es: seq<seq<byte>>, i: nat, all: seq<byte>, sizeAt: seq<byte> -> nat)
    requires Nonempty(es) && SelfSized(es, sizeAt) && Flat(es) == all && i < |es|
    ensures var pos := |Flat(es[..i])|;
      && pos < |all| && sizeAt(all[pos..]) == |es[i]| && pos + |es[i]| <= |all| && all[pos..pos + |es[i]|] == es[i]
      && |Flat(es[..i + 1])| == pos + |es[i]| && 0 < |es[i]| && es[..i] + [es[i]] == es[..i + 1]
  {
    hide Flat;
    FlatAround(es, i);
    FlatUpTo(es, i);
    var pos := |Flat(es[..i])|;
    assert all[pos..] == es[i] + Flat(es[i + 1..]);
  }

  lemma NotAllYet(es: seq<seq<byte>>, i: nat)
    requires i <= |es| && |Flat(es[..i])| < |Flat(es)|
    ensures i < |es|
  {
    assert es[..|es|] == es;
  }

  lemma AllRead(es: seq<seq<byte>>, i: nat)
    requires Nonempty(es) && i <= |es| && |Flat(es[..i])| == |Flat(es)|
    ensures es[..i] == es
  {
    hide Flat;
    if i < |es| {
      FlatAround(es, i);
    }
  }

  lemma PrefixFlat(es: seq<seq<byte>>, k: nat)
    requires Nonempty(es) && 0 < k <= |es|
    ensures 0 < |Flat(es[..k])| <= |Flat(es)| && (|Flat(es[..k])| == |Flat(es)| <==> k == |es|)
  {
    hide Flat;
    assert es == es[..k] + es[k..];
    FlatAdd(es[..k], es[k..]);
    FlatNone<byte>();
    assert es[..k] == [es[0]] + es[1..k];
    FlatCons(es[0], es[1..k]);
    if k < |es| {
      FlatAround(es[k..], 0);
    } else {
      assert es[k..] == [];
    }
  }

  lemma RestFlat(es: seq<seq<byte>>, k: nat)
    requires k <= |es|
    ensures |Flat(es[..k])| <= |Flat(es)| && Flat(es)[|Flat(es[..k])|..] == Flat(es[k..])
  {
    hide Flat;
    assert es == es[..k] + es[k..];
    FlatAdd(es[..k], es[k..]);
  }
}
