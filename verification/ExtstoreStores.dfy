/** What a writer stores is what it asked to store, where the page has room for it, and what readers
    get. */
module ExtstoreStores {
  import opened Octets
  import opened Sums
  import opened ExtstoreModel
  import opened ExtstoreInvariant
  import opened ExtstorePageProof
  import opened ExtstoreRuns
  import opened ExtstoreTheorems

  /** The page picked takes the object: it is being filled, and its buffer, or else a fresh one from
      the stack, has room. */
  ghost predicate Stores(s: Engine, b: nat)
    requires Shape(s) && b < s.conf.pageBuckets && s.writers[b].Picked?
  {
    var f, n := s.fills[s.writers[b].page], |s.writers[b].data|;
    f.active
    && match f.wbuf
       case Some(w) => !s.wbufs[w].full && n <= s.wbufs[w].free
       case None => f.reserved < s.conf.pageSize && s.wbufStack != [] && n <= s.conf.wbufSize
  }

  /** Where it goes. */
  ghost function Position(s: Engine, b: nat): int
    requires Shape(s) && b < s.conf.pageBuckets && s.writers[b].Picked?
  {
    var f := s.fills[s.writers[b].page];
    match f.wbuf
    case Some(w) => s.wbufs[w].offset + s.conf.wbufSize - s.wbufs[w].free
    case None => f.reserved
  }

  /** The objects logged under each version. */
  ghost predicate SameObjects(logs: map<nat, Log>, logs': map<nat, Log>, but: nat) {
    forall v :: v in logs && v != but ==> v in logs' && logs'[v].objs == logs[v].objs
  }

  /** What one section under the page lock stores: exactly the writer's object, or nothing. */
  ghost predicate StoresExactly(s: Engine, b: nat, s': Engine)
    requires Shape(s) && b < s.conf.pageBuckets && s.writers[b].Picked?
  {
    var p, data := s.writers[b].page, s.writers[b].data;
    var v := s.places[p].version;
    && SameObjects(s.logs, s'.logs, v)
    && if Stores(s, b) then
         && Position(s, b) >= 0 && v in s.logs && v in s'.logs
         && s'.logs[v].objs == s.logs[v].objs + [Obj(Position(s, b), data)]
         && s'.objectsUsed == s.objectsUsed + 1 && s'.bytesUsed == s.bytesUsed + |data|
         && s'.counts == s.counts[p := Counts(s.counts[p].objects + 1, s.counts[p].bytes + |data|)]
       else
         && (v in s.logs ==> v in s'.logs && s'.logs[v].objs == s.logs[v].objs)
         && s'.objectsUsed == s.objectsUsed && s'.bytesUsed == s.bytesUsed && s'.counts == s.counts
  }

  lemma FlushOnly(s: Engine, p: nat, t: nat, b: nat)
    requires Shape(s) && b < s.conf.pageBuckets && s.writers[b].Picked? && p == s.writers[b].page && t < |s.threads|
    requires s.places[p].version in s.logs && WbufShort(s, p, |s.writers[b].data|)
    ensures var m := SubmitWbuf(s, p, t);
      && StoresExactly(s, b, m) && m.fills == s.fills && m.wbufs[m.fills[p].wbuf.value].full
  {
    hide ConfOk, DiskShape, StackShape, ListShape, ThreadsShape, MaintShape;
  }

  lemma AppendOnly(s: Engine, p: nat, b: nat)
    requires Shape(s) && b < s.conf.pageBuckets && s.writers[b].Picked? && p == s.writers[b].page
    requires s.places[p].version in s.logs && s.fills[p].active && HasRoom(s, p, |s.writers[b].data|)
    ensures StoresExactly(s, b, Append(s, p, s.writers[b].data))
  {
    hide ConfOk, DiskShape, StackShape, ListShape, ThreadsShape, MaintShape;
  }

  lemma NothingStored(s: Engine, b: nat)
    requires Shape(s) && b < s.conf.pageBuckets && s.writers[b].Picked? && !Stores(s, b)
    ensures StoresExactly(s, b, s)
  {
  }

  /** A fresh buffer is empty and starts where the page is reserved up to. */
  lemma FreshBuffer(s: Engine, p: nat, b: nat)
    requires Shape(s) && b < s.conf.pageBuckets && s.writers[b].Picked? && p == s.writers[b].page
    requires s.fills[p].active && WantsWbuf(s, p) && s.wbufStack != [] && Shape(AllocateWbuf(s, p))
    ensures var m := AllocateWbuf(s, p);
      && m.conf == s.conf && m.writers == s.writers && m.places == s.places && m.logs == s.logs && m.counts == s.counts
      && m.objectsUsed == s.objectsUsed && m.bytesUsed == s.bytesUsed && m.fills[p].active
      && (HasRoom(m, p, |s.writers[b].data|) <==> Stores(s, b)) && (Stores(m, b) <==> Stores(s, b))
      && Position(m, b) == Position(s, b)
  {
    hide ConfOk, DiskShape, ListShape, ThreadsShape, MaintShape;
  }

  lemma PageStores(s: Engine, p: nat, t: nat, b: nat)
    requires Shape(s) && b < s.conf.pageBuckets && s.writers[b].Picked? && p == s.writers[b].page && t < |s.threads|
    requires !PageFull(s, p) && FillDefined(s, p, |s.writers[b].data|, t)
    ensures StoresExactly(s, b, FillPage(s, p, s.writers[b].data, t))
  {
    hide ConfOk, DiskShape, StackShape, ListShape, ThreadsShape, MaintShape, SubmitWbuf, AllocateWbuf, Append, RowShape,
      StoresExactly;
    var n := |s.writers[b].data|;
    if WbufShort(s, p, n) {
      FlushOnly(s, p, t, b);
    } else if s.fills[p].wbuf.Some? {
      if HasRoom(s, p, n) {
        AppendOnly(s, p, b);
      } else {
        NothingStored(s, b);
      }
    } else if s.wbufStack == [] || !WantsWbuf(s, p) {
      assert WbufIfNone(s, p) == s by { NoBuffer(s, p); }
      NothingStored(s, b);
    } else {
      FreshBuffer(s, p, b);
      var m := AllocateWbuf(s, p);
      if Stores(s, b) {
        AppendOnly(m, p, b);
        SameStore(s, m, b, Append(m, p, s.writers[b].data));
      } else {
        NothingStored(m, b);
        SameStore(s, m, b, m);
      }
    }
  }

  lemma NoBuffer(s: Engine, p: nat)
    requires Shape(s) && p < s.conf.pageCount && (s.wbufStack == [] || !WantsWbuf(s, p))
    ensures WbufIfNone(s, p) == s
  {
  }

  lemma SameStore(s: Engine, m: Engine, b: nat, s': Engine)
    requires Shape(s) && Shape(m) && b < s.conf.pageBuckets && s.writers[b].Picked? && m.writers == s.writers
    requires m.conf == s.conf && m.places == s.places && m.logs == s.logs && m.counts == s.counts
    requires m.objectsUsed == s.objectsUsed && m.bytesUsed == s.bytesUsed
    requires (Stores(m, b) <==> Stores(s, b)) && Position(m, b) == Position(s, b) && StoresExactly(m, b, s')
    ensures StoresExactly(s, b, s')
  {
    hide Stores, Position, ConfOk, DiskShape, StackShape, ListShape, ThreadsShape, MaintShape, WbufShape;
  }

  lemma FullStoresNothing(s: Engine, b: nat)
    requires Shape(s) && b < s.conf.pageBuckets && s.writers[b].Picked? && PageFull(s, s.writers[b].page)
    ensures !Stores(s, b)
  {
    hide ConfOk, RowShape, DiskShape, StackShape, ListShape, ThreadsShape, MaintShape;
  }

  /** One DoFill stores exactly the writer's object, if there is room, and nothing else. */
  lemma FillStores(s: Engine, b: nat, t: nat, s': Engine)
    requires Follows(s, DoFill(b, t), s')
    ensures StoresExactly(s, b, s')
  {
    hide ConfOk, DiskShape, StackShape, ListShape, ThreadsShape, MaintShape, PageFull, FillPage, FillDefined,
      StoresExactly, Stores;
    var p := s.writers[b].page;
    if PageFull(s, p) {
      FullStoresNothing(s, b);
      NothingStored(s, b);
      OtherWriters(s, b, s, s');
    } else {
      PageStores(s, p, t, b);
      OtherWriters(s, b, FillPage(s, p, s.writers[b].data, t), s');
    }
  }

  lemma OtherWriters(s: Engine, b: nat, m: Engine, s': Engine)
    requires Shape(s) && b < s.conf.pageBuckets && s.writers[b].Picked? && StoresExactly(s, b, m)
    requires s' == m.(writers := s'.writers)
    ensures StoresExactly(s, b, s')
  {
    hide Stores, Position, Shape;
  }

  // ---------------------------------------------------------------- over runs

  /** A step of the writer of bucket b. */
  predicate WriterStep(step: Step, b: nat) {
    match step
    case DoPick(x, _, _) => x == b
    case DoFill(x, _) => x == b
    case DoNewPage(x) => x == b
    case _ => false
  }

  lemma OthersLeave(s: Engine, step: Step, s': Engine, b: nat)
    requires Follows(s, step, s') && b < s.conf.pageBuckets && !WriterStep(step, b)
    ensures b < |s.writers| && b < |s'.writers| && s'.writers[b] == s.writers[b] && s'.conf == s.conf
  {
    hide ConfOk, RowShape, FillShape, DiskShape, WbufShape, StackShape, ThreadsShape, FillPage, FillDefined, PageFull,
      Readable, InWbuf, WbufReadSafe, Noted, HeadFull, FreeCounted;
    if step.DoFill? && !PageFull(s, s.writers[step.b].page) {
      FillConf(s, s.writers[step.b].page, s.writers[step.b].data, step.t);
    }
  }

  lemma PickHands(s: Engine, b: nat, fb: nat, data: seq<byte>, s': Engine)
    requires Follows(s, DoPick(b, fb, data), s')
    ensures b < |s'.writers| && s'.conf == s.conf
    ensures b < |s'.buckets| && if s'.buckets[b] == [] then s'.writers[b].Idle?
                                else s'.writers[b] == Picked(s'.buckets[b][0], fb, data)
  {
    hide ConfOk, RowShape, FillShape, DiskShape, WbufShape, StackShape, ThreadsShape, HeadFull, FreeCounted;
  }

  /** Between a pick and the writer's next step the object waits. */
  lemma {:induction false} Waits(states: seq<Engine>, steps: seq<Step>, fbs: seq<nat>, a: nat, m: nat)
    requires IsRun(states, steps, fbs) && a < m <= |steps| && steps[a].DoPick?
    requires forall k :: a < k < m ==> !WriterStep(steps[k], steps[a].b)
    ensures var b := steps[a].b;
      && Shape(states[m]) && b < states[m].conf.pageBuckets
      && (states[m].writers[b].Idle? || (states[m].writers[b].Picked? && states[m].writers[b].data == steps[a].data))
    decreases m
  {
    hide Inv, Init, Follows, Shape;
    RunIsGood(states, steps, fbs, m);
    InvShape(states[m]);
    assert Follows(states[m - 1], steps[m - 1], states[m]);
    if a == m - 1 {
      PickBucket(states[a], steps[a], states[m]);
      PickHands(states[a], steps[a].b, steps[a].fb, steps[a].data, states[m]);
    } else {
      Waits(states, steps, fbs, a, m - 1);
      OthersLeave(states[m - 1], steps[m - 1], states[m], steps[a].b);
    }
  }

  lemma PickBucket(s: Engine, step: Step, s': Engine)
    requires Follows(s, step, s') && step.DoPick?
    ensures step.b < s.conf.pageBuckets
  {
  }

  /** A pick and the fill that follows it store the object handed over with the pick, exactly when the
      page picked has room for it; and whenever a read of that place under that version succeeds later,
      it returns that object. */
  lemma WrittenIsRead(states: seq<Engine>, steps: seq<Step>, fbs: seq<nat>, a: nat, m: nat, j: nat, r: Completed)
    requires IsRun(states, steps, fbs) && a < m < j <= |steps| && steps[a].DoPick? && steps[m].DoFill?
    requires steps[m].b == steps[a].b && forall k :: a < k < m ==> !WriterStep(steps[k], steps[a].b)
    requires r in states[j].results && r.io.Read?
    ensures var s, s', b, data := states[m], states[m + 1], steps[a].b, steps[a].data;
      && Shape(s) && b < s.conf.pageBuckets && s.writers[b].Picked? && s.writers[b].data == data
      && s'.objectsUsed == s.objectsUsed + (if Stores(s, b) then 1 else 0)
      && (Stores(s, b) ==>
            var v := s.places[s.writers[b].page].version;
            && v in s.logs && v in s'.logs && Position(s, b) >= 0
            && s'.logs[v].objs == s.logs[v].objs + [Obj(Position(s, b), data)]
            && (r.io.version == v && r.io.offset == Position(s, b) && r.io.len == |data| && r.Data? ==> r.data == data))
  {
    hide Inv, Init, Stores, Position, SameObjects, Apply;
    Waits(states, steps, fbs, a, m);
    var s, s', b := states[m], states[m + 1], steps[a].b;
    assert Follows(states[m], steps[m], states[m + 1]);
    FillStores(s, b, steps[m].t, s');
    if Stores(s, b) {
      var v := s.places[s.writers[b].page].version;
      if r.io.version == v {
        StoredObjectsReadBack(states, steps, fbs, m + 1, j, v, |s.logs[v].objs|, r);
      }
    }
  }
}
