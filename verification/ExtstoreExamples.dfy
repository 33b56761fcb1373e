/** Two runs of a small engine: one whose counts drift, one that evicts a page that is not the oldest. */
module ExtstoreExamples {
  import opened Sums
  import opened ExtstoreModel
  import opened ExtstoreInvariant
  import opened ExtstorePageProof
  import opened ExtstoreRuns
  import opened ExtstoreEviction

  /** Two usable pages of one byte, each filled by one buffer; two buckets, two IO threads. */
  ghost const SMALL: Conf := Conf(1, 3, 1, 2, 2, 1)
  ghost const HOMES: seq<nat> := [0, 0, 0]
  ghost const QUIET: IoThread := IoThread([], 0, [], Start)

  ghost function Small(): Engine {
    Engine(
      SMALL, seq(3, (p: nat) requires p < 3 => Place(true, 0, HOMES[p], 0)), seq(3, (p: nat) => Fill(0, 0, false,
        None)),
      seq(3, (p: nat) => Counts(0, 0)), seq(3, (p: nat) => 0), seq(3, (p: nat) => false),
      [[0], [0], [0]], [Wbuf([0], 1, 0, false), Wbuf([0], 1, 0, false)], [1, 0], 2,
      [[1, 2], []], [[], []], 2, 1, 0, 0, [QUIET, QUIET], seq(2, (b: nat) => Idle), Sleeping, map[], [], 0, 0)
  }

  lemma SmallInit()
    ensures Init(Small(), HOMES) && Inv(Small()) && IsRun([Small()], [], HOMES)
  {
    hide Inv;
    var s := Small();
    assert FreeListFrom(HOMES, 0, 3) == [] && FreeListFrom(HOMES, 1, 3) == [];
    assert FreeListFrom(HOMES, 0, 2) == [2] && FreeListFrom(HOMES, 1, 2) == [];
    assert FreeListFrom(HOMES, 0, 1) == [1, 2] && FreeListFrom(HOMES, 1, 1) == [];
    assert s.freeLists == FreeLists(HOMES, 2);
    assert s.buckets == seq(2, (b: nat) => []);
    assert s.wbufStack == seq(2, (k: nat) requires k < 2 => 1 - k);
    InitGood(s, HOMES);
  }

  /** A run goes on with any step enabled at its end. */
  lemma Goes(states: seq<Engine>, steps: seq<Step>, step: Step, s': Engine)
    requires IsRun(states, steps, HOMES) && Shape(states[|steps|]) && Enabled(states[|steps|], step)
    requires Defined(states[|steps|], step) ==> s' == Apply(states[|steps|], step)
    ensures Inv(s') && Shape(s') && IsRun(states + [s'], steps + [step], HOMES)
  {
    hide Inv, Init, Apply, Defined, Enabled, Shape;
    var s := states[|steps|];
    RunIsGood(states, steps, HOMES, |steps|);
    StepKeeps(s, step);
    InvShape(s');
    var states', steps' := states + [s'], steps + [step];
    forall i | 0 <= i < |steps'|
      ensures Follows(states'[i], steps'[i], states'[i + 1])
    {
      if i < |steps| {
        assert Follows(states[i], steps[i], states[i + 1]);
        assert states'[i] == states[i] && steps'[i] == steps[i] && states'[i + 1] == states[i + 1];
      }
    }
  }

  // ---------------------------------------------------------------- a bucket stores one object and ships its buffer

  /** Page b + 1 and buffer 1 - b are next in line for bucket b. */
  ghost predicate Ready(s: Engine, b: nat) {
    && Shape(s) && s.conf == SMALL && b < 2 && s.buckets[b] == [] && s.writers[b] == Idle
    && s.freeLists[0] != [] && s.freeLists[0][0] == b + 1 && s.pageFree > 0 && s.version == b + 1
    && s.places[b + 1] == Place(true, 0, 0, 0) && s.fills[b + 1] == Fill(0, 0, false, None)
    && s.counts[b + 1] == Counts(0, 0) && s.wbufStack != [] && s.wbufStack[0] == 1 - b
    && s.wbufs[1 - b] == Wbuf([0], 1, 0, false) && |s.threads| == 2 && s.threads[b] == QUIET && s.ioStack > 0
  }

  ghost function Chosen(s: Engine, b: nat): Engine
    requires Ready(s, b)
  {
    s.(freeLists := s.freeLists[0 := s.freeLists[0][1..]], buckets := s.buckets[b := [b + 1]],
       fills := s.fills[b + 1 := Fill(0, 0, true, None)], places := s.places[b + 1 := Place(false, b, 0, b + 1)],
       closed := s.closed[b + 1 := false], version := b + 2, pageFree := s.pageFree - 1,
       logs := s.logs[b + 1 := Log(b + 1, [], [])], writers := s.writers[b := Picked(b + 1, 0, [7])])
  }

  ghost function Stored(s: Engine, b: nat): Engine
    requires Ready(s, b)
  {
    var m := Chosen(s, b);
    m.(wbufStack := s.wbufStack[1..], wbufs := s.wbufs[1 - b := Wbuf([7], 0, 0, false)],
       fills := m.fills[b + 1 := Fill(1, 0, true, Some(1 - b))], counts := s.counts[b + 1 := Counts(1, 1)],
       objectsUsed := s.objectsUsed + 1, bytesUsed := s.bytesUsed + 1,
       logs := m.logs[b + 1 := Log(b + 1, [7], [Obj(0, [7])])], writers := s.writers)
  }

  lemma Chooses(s: Engine, b: nat)
    requires Ready(s, b)
    ensures var st := DoPick(b, 0, [7]); Enabled(s, st) && Defined(s, st) && Apply(s, st) == Chosen(s, b)
  {
    hide DiskShape, StackShape, ThreadsShape, MaintShape;
    assert [b + 1] + s.buckets[b] == [b + 1];
  }

  lemma GetsBuffer(s: Engine, b: nat)
    requires Ready(s, b) && Shape(Chosen(s, b))
    ensures var m := Chosen(s, b);
      AllocateWbuf(m, b + 1)
        == m.(wbufStack := s.wbufStack[1..], fills := m.fills[b + 1 := Fill(1, 0, true, Some(1 - b))])
  {
    hide DiskShape, StackShape, ThreadsShape, MaintShape, ListShape, WritersShape;
    assert s.wbufs[1 - b := Wbuf([0], 1, 0, false)] == s.wbufs;
  }

  lemma FillsBuffer(s: Engine, b: nat)
    requires Ready(s, b) && Shape(Chosen(s, b)) && Shape(AllocateWbuf(Chosen(s, b), b + 1))
    ensures var m := Chosen(s, b);
      var a := AllocateWbuf(m, b + 1);
      && HasRoom(a, b + 1, 1) && a.places[b + 1].version in a.logs
      && Append(a, b + 1, [7]) == Stored(s, b).(writers := m.writers)
  {
    hide ConfOk, DiskShape, StackShape, ThreadsShape, MaintShape, ListShape, WritersShape, AllocateWbuf;
    GetsBuffer(s, b);
    assert Copied(Wbuf([0], 1, 0, false), [7]) == Wbuf([7], 0, 0, false);
    assert [] + [7] == [7] && [] + [Obj(0, [7])] == [Obj(0, [7])];
  }

  lemma Stores(s: Engine, b: nat)
    requires Ready(s, b) && Shape(Chosen(s, b))
    ensures var m, st := Chosen(s, b), DoFill(b, b);
      Enabled(m, st) && (Defined(m, st) ==> Apply(m, st) == Stored(s, b))
  {
    hide ConfOk, DiskShape, StackShape, ThreadsShape, MaintShape, ListShape, AllocateWbuf, Append, HasRoom;
    var m := Chosen(s, b);
    if Defined(m, DoFill(b, b)) {
      FillsBuffer(s, b);
    }
    assert m.writers[b := Idle] == s.writers;
  }

  /** The two steps that store an object. */
  lemma StoreRun(states: seq<Engine>, steps: seq<Step>, b: nat) returns (states': seq<Engine>, steps': seq<Step>)
    requires IsRun(states, steps, HOMES) && Ready(states[|steps|], b)
    ensures IsRun(states', steps', HOMES) && |steps'| == |steps| + 2
    ensures states' == states + [Chosen(states[|steps|], b), Stored(states[|steps|], b)]
    ensures Shape(states'[|steps'|]) && steps' == steps + [DoPick(b, 0, [7]), DoFill(b, b)]
  {
    hide Inv, Init, Apply, Defined, Enabled, Shape, Chosen, Stored;
    var s := states[|steps|];
    Chooses(s, b);
    Goes(states, steps, DoPick(b, 0, [7]), Chosen(s, b));
    states', steps' := states + [Chosen(s, b)], steps + [DoPick(b, 0, [7])];
    Stores(s, b);
    Goes(states', steps', DoFill(b, b), Stored(s, b));
    states', steps' := states' + [Stored(s, b)], steps' + [DoFill(b, b)];
  }

  // ---------------------------------------------------------------- counts that drift

  ghost const DROP: Step := DoDelete(1, 1, 1, 1)

  lemma SmallReady()
    ensures Ready(Small(), 0) && Sum(Small().counts, Objects()) == 0
  {
    SmallInit();
    InvShape(Small());
    SumZero(Small().counts, Objects());
  }

  /** A delete of one object from page 1, open under version 1. */
  lemma Drops(s: Engine)
    requires Shape(s) && s.conf == SMALL && s.places[1].version == 1 && !s.closed[1] && s.counts[1].objects <= 1
    ensures Enabled(s, DROP) && Defined(s, DROP)
    ensures var s' := Apply(s, DROP);
      && s'.conf == s.conf && s'.places == s.places && s'.closed == s.closed && s'.objectsUsed == s.objectsUsed - 1
      && s'.counts == s.counts[1 := Counts(0, if s.counts[1].bytes >= 1 then s.counts[1].bytes - 1 else 0)]
  {
    hide DiskShape, WbufShape, StackShape, ThreadsShape, MaintShape, ListShape, WritersShape;
  }

  /** One object stored and deleted twice: the page counts none, the engine minus one. */
  lemma DriftHappens() returns (states: seq<Engine>, steps: seq<Step>)
    ensures IsRun(states, steps, HOMES) && steps == [DoPick(0, 0, [7]), DoFill(0, 0), DROP, DROP]
    ensures states[4].objectsUsed == -1 && Sum(states[4].counts, Objects()) == 0
  {
    hide Inv, Init, Defined, Enabled, Apply, Shape;
    SmallInit();
    SmallReady();
    states, steps := StoreRun([Small()], [], 0);
    var m := states[2];
    Drops(m);
    Goes(states, steps, DROP, Apply(m, DROP));
    states, steps := states + [Apply(m, DROP)], steps + [DROP];
    var n := states[3];
    Drops(n);
    Goes(states, steps, DROP, Apply(n, DROP));
    states, steps := states + [Apply(n, DROP)], steps + [DROP];
    assert states[4].counts == Small().counts;
  }

  // ---------------------------------------------------------------- a page that fills behind the scan

  /** The next object does not fit: the buffer is shipped, taken by its IO thread and written out. */
  ghost function Flight(b: nat): Io
    requires b < 2
  {
    Write(b + 1, 1 - b, 0)
  }

  ghost function Again(s: Engine, b: nat): Engine
    requires Ready(s, b)
  {
    var m := Stored(s, b);
    m.(writers := m.writers[b := Picked(b + 1, 0, [7])])
  }

  ghost function Shipped(s: Engine, b: nat): Engine
    requires Ready(s, b)
  {
    var m := Stored(s, b);
    m.(wbufs := m.wbufs[1 - b := Wbuf([7], 0, 0, true)], ioStack := m.ioStack - 1,
       threads := m.threads[b := IoThread([Flight(b)], 1, [], Start)],
       logs := m.logs[b + 1 := m.logs[b + 1].(bytes := m.logs[b + 1].bytes + Zeros(0))])
  }

  ghost function TakenUp(s: Engine, b: nat): Engine
    requires Ready(s, b)
  {
    var m := Shipped(s, b);
    m.(threads := m.threads[b := IoThread([], 0, [Flight(b)], Start)])
  }

  ghost function InFlight(s: Engine, b: nat): Engine
    requires Ready(s, b)
  {
    var m := TakenUp(s, b);
    m.(threads := m.threads[b := IoThread([], 0, [Flight(b)], Flushed)], disk := m.disk[b + 1 := [7]])
  }

  lemma Repicks(s: Engine, b: nat)
    requires Ready(s, b) && Shape(Stored(s, b))
    ensures var m, st := Stored(s, b), DoPick(b, 0, [7]);
      Enabled(m, st) && Defined(m, st) && Apply(m, st) == Again(s, b)
  {
    hide DiskShape, StackShape, ThreadsShape, MaintShape;
  }

  lemma ShipsBuffer(s: Engine, b: nat)
    requires Ready(s, b) && Shape(Again(s, b))
    ensures var m := Again(s, b);
      m.places[b + 1].version in m.logs && SubmitWbuf(m, b + 1, b) == Shipped(s, b).(writers := m.writers)
  {
    hide ConfOk, DiskShape, StackShape, ThreadsShape, MaintShape, ListShape, WritersShape;
    var m := Again(s, b);
    assert m.wbufs[1 - b] == Wbuf([7], 0, 0, false);
    assert Padded(m.wbufs[1 - b]) == [7];
    assert [] + [Flight(b)] == [Flight(b)];
  }

  lemma Ships(s: Engine, b: nat)
    requires Ready(s, b) && Shape(Again(s, b))
    ensures var m, st := Again(s, b), DoFill(b, b);
      Enabled(m, st) && (Defined(m, st) ==> Apply(m, st) == Shipped(s, b))
  {
    hide ConfOk, RowShape, DiskShape, StackShape, ThreadsShape, MaintShape, ListShape, SubmitWbuf;
    ShipsBuffer(s, b);
    var m := Again(s, b);
    assert m.wbufs[1 - b] == Wbuf([7], 0, 0, false) && m.fills[b + 1] == Fill(1, 0, true, Some(1 - b));
    assert m.writers[b := Idle] == s.writers;
  }

  lemma TakesUp(s: Engine, b: nat)
    requires Ready(s, b) && Shape(Shipped(s, b))
    ensures var m, st := Shipped(s, b), DoTakeBatch(b);
      Enabled(m, st) && Defined(m, st) && Apply(m, st) == TakenUp(s, b)
  {
    hide DiskShape, StackShape, MaintShape, ListShape, WritersShape;
    assert [Flight(b)][1..] == [] && [Flight(b)][..1] == [Flight(b)];
  }

  lemma Writes(s: Engine, b: nat)
    requires Ready(s, b) && Shape(TakenUp(s, b))
    ensures var m, st := TakenUp(s, b), DoPwrite(b);
      Enabled(m, st) && Defined(m, st) && Apply(m, st) == InFlight(s, b)
  {
    hide StackShape, MaintShape, ListShape, WritersShape;
    var m := TakenUp(s, b);
    assert Overwrite(m.disk[b + 1], 0, [7]) == [7];
  }

  /** The four steps that bring the buffer out. */
  lemma FlightRun(states: seq<Engine>, steps: seq<Step>, s: Engine, b: nat)
    returns (states': seq<Engine>, steps': seq<Step>)
    requires IsRun(states, steps, HOMES) && Ready(s, b) && states[|steps|] == Stored(s, b) && Shape(Stored(s, b))
    ensures IsRun(states', steps', HOMES) && |steps'| == |steps| + 4
    ensures states'[|steps'|] == InFlight(s, b) && Shape(InFlight(s, b))
  {
    hide Inv, Init, Apply, Defined, Enabled, Shape, Ready, Stored, Again, Shipped, TakenUp, InFlight;
    Repicks(s, b);
    Goes(states, steps, DoPick(b, 0, [7]), Again(s, b));
    states', steps' := states + [Again(s, b)], steps + [DoPick(b, 0, [7])];
    Ships(s, b);
    Goes(states', steps', DoFill(b, b), Shipped(s, b));
    states', steps' := states' + [Shipped(s, b)], steps' + [DoFill(b, b)];
    TakesUp(s, b);
    Goes(states', steps', DoTakeBatch(b), TakenUp(s, b));
    states', steps' := states' + [TakenUp(s, b)], steps' + [DoTakeBatch(b)];
    Writes(s, b);
    Goes(states', steps', DoPwrite(b), InFlight(s, b));
    states', steps' := states' + [InFlight(s, b)], steps' + [DoPwrite(b)];
  }

  /** Both pages hold an object and have their buffer written out; landed says for which of the two
      the callback has run. */
  ghost predicate Out(s: Engine, landed: set<nat>, m: Maint) {
    && Shape(s) && s.conf == SMALL && s.maint == m && s.pageFree == 0 && s.places[0].free && |s.threads| == 2
    && forall b: nat :: b < 2 ==> OutRow(s, b, b in landed)
  }

  ghost predicate OutRow(s: Engine, b: nat, landed: bool)
    requires Shape(s) && s.conf == SMALL && |s.threads| == 2 && b < 2
  {
    && s.places[b + 1] == Place(false, b, 0, b + 1) && s.counts[b + 1] == Counts(1, 1)
    && !s.closed[b + 1] && s.refs[b + 1] == 0
    && if landed then s.fills[b + 1] == Fill(1, 1, false, None)
       else s.fills[b + 1] == Fill(1, 0, true, Some(1 - b)) && s.threads[b] == IoThread([], 0, [Flight(b)], Flushed)
  }

  /** What the six steps change, all told. */
  lemma FlightRows(s: Engine, b: nat)
    requires Ready(s, b)
    ensures var r, p := InFlight(s, b), b + 1;
      && r.conf == s.conf && r.refs == s.refs && r.writers == s.writers && r.maint == s.maint
      && r.places == s.places[p := Place(false, b, 0, p)] && r.fills == s.fills[p := Fill(1, 0, true, Some(1 - b))]
      && r.counts == s.counts[p := Counts(1, 1)] && r.closed == s.closed[p := false]
      && r.wbufs == s.wbufs[1 - b := Wbuf([7], 0, 0, true)] && r.wbufStack == s.wbufStack[1..]
      && r.ioStack == s.ioStack - 1 && r.pageFree == s.pageFree - 1 && r.version == b + 2
      && r.freeLists == s.freeLists[0 := s.freeLists[0][1..]] && r.buckets == s.buckets[b := [p]]
      && r.threads == s.threads[b := IoThread([], 0, [Flight(b)], Flushed)]
  {
    hide DiskShape, StackShape, ListShape, ThreadsShape, WritersShape;
  }

  lemma ReadyAgain()
    requires Ready(Small(), 0) && Shape(InFlight(Small(), 0))
    ensures Ready(InFlight(Small(), 0), 1)
  {
    hide InFlight, RowShape, FillShape, DiskShape, WbufShape, StackShape, ListShape, ThreadsShape, WritersShape;
    FlightRows(Small(), 0);
    assert Small().freeLists[0][1..] == [2] && Small().wbufStack[1..] == [0];
  }

  lemma OutFacts()
    requires Ready(Small(), 0) && Ready(InFlight(Small(), 0), 1) && Shape(InFlight(InFlight(Small(), 0), 1))
    ensures Out(InFlight(InFlight(Small(), 0), 1), {}, Sleeping)
  {
    hide InFlight, RowShape, FillShape, DiskShape, WbufShape, StackShape, ListShape, ThreadsShape, WritersShape;
    FlightRows(Small(), 0);
    FlightRows(InFlight(Small(), 0), 1);
  }

  lemma OutRun() returns (states: seq<Engine>, steps: seq<Step>)
    ensures IsRun(states, steps, HOMES) && Out(states[|steps|], {}, Sleeping)
  {
    hide Inv, Init, Shape, Ready, Stored, InFlight, Out;
    SmallInit();
    SmallReady();
    states, steps := StoreRun([Small()], [], 0);
    states, steps := FlightRun(states, steps, Small(), 0);
    ReadyAgain();
    states, steps := StoreRun(states, steps, 1);
    states, steps := FlightRun(states, steps, InFlight(Small(), 0), 1);
    OutFacts();
  }

  /** A callback completes its page. */
  lemma Lands(s: Engine, landed: set<nat>, m: Maint, b: nat)
    requires Out(s, landed, m) && b < 2 && b !in landed
    ensures Enabled(s, DoWbufDone(b)) && Completes(s, DoWbufDone(b), b + 1)
    ensures Defined(s, DoWbufDone(b)) ==> (Shape(Apply(s, DoWbufDone(b))) ==>
      Out(Apply(s, DoWbufDone(b)), landed + {b}, m))
  {
    hide ConfOk, DiskShape, WbufShape, StackShape, ListShape, ThreadsShape, WritersShape, MaintShape;
    assert OutRow(s, b, false) && OutRow(s, 1 - b, 1 - b in landed);
  }

  /** The scan looks at a page of these. */
  lemma Looks(s: Engine, landed: set<nat>, evict: bool, i: nat, low: Option<Low>, cands: set<Low>)
    requires Out(s, landed, Scanning(i, evict, low, cands)) && i < 3
    ensures Enabled(s, DoMaintScan) && Defined(s, DoMaintScan)
    ensures Evictable(s, i) <==> i > 0 && i - 1 in landed
    ensures var m := Noted(s, s.maint);
      && m.Scanning? && m.i == i + 1 && m.evict == evict
      && Apply(s, DoMaintScan) == s.(maint := m)
      && (Shape(Apply(s, DoMaintScan)) ==> Out(Apply(s, DoMaintScan), landed, m))
      && (!Evictable(s, i) ==> m.low == low)
      && (Evictable(s, i) && low.None? ==> m.low == Some(Low(i, i)))
  {
    hide ConfOk, DiskShape, WbufShape, StackShape, ListShape, ThreadsShape, WritersShape;
    if i > 0 {
      assert OutRow(s, i - 1, i - 1 in landed);
    }
    var r := s.(maint := Noted(s, s.maint));
    assert Shape(r) ==> forall b: nat :: b < 2 ==> OutRow(r, b, b in landed) by {
      assert forall b: nat :: b < 2 ==> OutRow(s, b, b in landed);
    }
  }

  /** A run and its continuation by one step. */
  lemma Extended(states: seq<Engine>, steps: seq<Step>, step: Step) returns (states': seq<Engine>, steps': seq<Step>)
    requires IsRun(states, steps, HOMES) && Shape(states[|steps|]) && Enabled(states[|steps|], step)
    ensures IsRun(states', steps', HOMES) && steps' == steps + [step]
    ensures Defined(states[|steps|], step) && |states'| == |steps'| + 1
    ensures states'[|steps'|] == Apply(states[|steps|], step) && states'[..|steps'|] == states
    ensures Shape(states'[|steps'|]) && Inv(states'[|steps'|])
  {
    hide Inv, Init, Apply, Defined, Enabled, Shape;
    var s := states[|steps|];
    RunIsGood(states, steps, HOMES, |steps|);
    StepKeeps(s, step);
    Goes(states, steps, step, Apply(s, step));
    states', steps' := states + [Apply(s, step)], steps + [step];
  }

  lemma Wakes(s: Engine, landed: set<nat>)
    requires Out(s, landed, Sleeping)
    ensures Enabled(s, DoMaintStart) && Defined(s, DoMaintStart)
    ensures Shape(Apply(s, DoMaintStart)) ==> Out(Apply(s, DoMaintStart), landed, Scanning(0, true, None, {}))
  {
    hide ConfOk, DiskShape, WbufShape, StackShape, ThreadsShape, WritersShape;
    var r := s.(maint := Scanning(0, true, None, {}));
    assert Shape(r) ==> forall b: nat :: b < 2 ==> OutRow(r, b, b in landed) by {
      assert forall b: nat :: b < 2 ==> OutRow(s, b, b in landed);
    }
  }

  /** The pass up to its end: page 2 lands before it, page 1 behind the cursor. */
  lemma PassRun(states0: seq<Engine>, steps0: seq<Step>) returns (states: seq<Engine>, steps: seq<Step>)
    requires IsRun(states0, steps0, HOMES) && Out(states0[|steps0|], {}, Sleeping)
    ensures IsRun(states, steps, HOMES) && Shape(states[|steps|])
    ensures steps == steps0 + [DoWbufDone(1), DoMaintStart, DoMaintScan, DoMaintScan, DoWbufDone(0), DoMaintScan]
    ensures states[|steps|].maint.Scanning? && Out(states[|steps|], {1} + {0}, states[|steps|].maint)
    ensures var m := states[|steps|].maint; m.i == 3 && m.evict && m.low == Some(Low(2, 2))
  {
    hide Inv, Init, Apply, Defined, Enabled, Shape, OutRow, Noted, Evictable, Follows;
    var none: set<nat> := {};
    assert none + {1} == {1};
    Lands(states0[|steps0|], {}, Sleeping, 1);
    states, steps := Extended(states0, steps0, DoWbufDone(1));
    Wakes(states[|steps|], {1});
    states, steps := Extended(states, steps, DoMaintStart);
    Looks(states[|steps|], {1}, true, 0, None, {});
    states, steps := Extended(states, steps, DoMaintScan);
    var m := states[|steps|].maint;
    Looks(states[|steps|], {1}, true, 1, None, m.cands);
    states, steps := Extended(states, steps, DoMaintScan);
    m := states[|steps|].maint;
    Lands(states[|steps|], {1}, m, 0);
    states, steps := Extended(states, steps, DoWbufDone(0));
    Looks(states[|steps|], {1} + {0}, true, 2, None, m.cands);
    states, steps := Extended(states, steps, DoMaintScan);
  }

  lemma Evicts(s: Engine)
    requires Out(s, {1} + {0}, s.maint) && s.maint.Scanning? && s.maint.i == 3 && s.maint.evict
    requires s.maint.low == Some(Low(2, 2))
    ensures Enabled(s, DoMaintEvict) && Defined(s, DoMaintEvict) && Evictable(s, 1) && s.places[1].version == 1
    ensures var s' := Apply(s, DoMaintEvict);
      |s'.places| == 3 && s'.places[2].free && !s'.places[1].free && !s.places[2].free
  {
    hide ConfOk, DiskShape, WbufShape, StackShape, ListShape, ThreadsShape, WritersShape;
    assert OutRow(s, 0, true) && OutRow(s, 1, true);
  }

  /** A pass that frees page 2, of version 2, although page 1, of version 1, is evictable by then: page 1
      was still being flushed when the scan came by. */
  lemma OldestMissed() returns (states: seq<Engine>, steps: seq<Step>, i: nat, j: nat)
    ensures IsRun(states, steps, HOMES) && IsPass(states, steps, i, j) && Shape(states[j])
    ensures states[j].maint.Scanning? && states[j].maint.evict && states[j].maint.low == Some(Low(2, 2))
    ensures 2 < states[j].conf.pageCount && Evictable(states[j], 1) && states[j].places[1].version == 1
    ensures |states[j + 1].places| == 3 && !states[j].places[2].free && states[j + 1].places[2].free &&
      !states[j + 1].places[1].free
  {
    hide Inv, Init, Apply, Defined, Enabled, OutRow, Evictable, Follows, ConfOk, FillShape, DiskShape, WbufShape,
      StackShape, ListShape, ThreadsShape, WritersShape, MaintShape;
    states, steps := OutRun();
    var n := |steps|;
    i, j := n + 1, n + 6;
    states, steps := PassRun(states, steps);
    Evicts(states[j]);
    ghost var last := steps;
    states, steps := Extended(states, steps, DoMaintEvict);
    assert forall k :: i < k < j ==> steps[k] == last[k];
    RunIsPath(states, steps, HOMES);
  }
}
