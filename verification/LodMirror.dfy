/** Server and viewer together: over every run the viewer shows what the server thinks it holds. */
module LodMirror {
  import opened Voxels
  import opened Lod
  import opened DeltaProtocol
  import opened LodServers
  import opened LodViewers
  import opened LogHistory

  /** Everything that can happen on an open connection; `Deliver` hands the viewer its next message. */
  datatype Event =
    | View(select: Cell -> Option<nat>)
    | Refresh(select: Cell -> Option<nat>)
    | Fuse(grown: map<Cell, Fine>, changed: set<Cell>)
    | Rebuild(rebuilt: map<Cell, Fine>)
    | Deliver

  ghost predicate ServableAll(ladder: Ladder, chunks: map<Cell, Fine>) {
    forall c :: c in chunks ==> Servable(ladder, chunks[c]) && Sound(chunks[c].vox)
  }

  /** Chunks only grow, except when the session is rebuilt. */
  ghost predicate Plausible(ladder: Ladder, chunks: map<Cell, Fine>, events: seq<Event>)
    decreases |events|
  {
    |events| == 0 ||
    match events[0]
    case Fuse(grown, _) =>
      && (forall c :: c in chunks ==> c in grown && Grows(chunks[c], grown[c]))
      && ServableAll(ladder, grown) && Plausible(ladder, grown, events[1..])
    case Rebuild(rebuilt) => ServableAll(ladder, rebuilt) && Plausible(ladder, rebuilt, events[1..])
    case _ => Plausible(ladder, chunks, events[1..])
  }

  ghost function HeldPoints(sent: map<Cell, Held>): nat {
    Sum(map c | c in sent :: sent[c].count)
  }

  /**
   * The viewer holds exactly the chunks recorded as sent, each with the recorded number of points
   * within its capacity. Without a filter those points lie in exactly the cells, in order, of the
   * recorded version's level; with a filter on hits alone they lie one each in exactly the cells of
   * the filtered derivation of the chunk as it was when it was last refreshed. Under any filter they
   * begin with the chunk in full as of a stage whose voxels have not doubled since.
   */
  ghost predicate Mirrored(server: LodServer, viewer: Viewer)
    reads server, viewer, viewer.base.Values, viewer.Buffers()
    requires server.Valid() && viewer.Valid()
  {
    && viewer.base.Keys == server.sent.Keys && server.sent.Keys <= server.chunks.Keys
    && viewer.basePointCount == HeldPoints(server.sent)
    && forall c :: c in server.sent ==>
         var held := server.sent[c];
         && viewer.base[c].count == held.count <= viewer.base[c].buffer.Length
         && held.version <= |server.chunks[c].vox.keys|
         && (!Filtering(server.filter) ==>
               CellsOf(viewer.base[c].buffer[..held.count], Grid(LevelVoxelMeters(server.ladder, held.level)))
               == Unfiltered(server.chunks[c].vox.keys, Doublings(server.ladder, held.level), held.version))
         && held.count > 0 && c in server.asOf && Sound(server.asOf[c].last.vox)
         && held.version == |server.asOf[c].last.vox.keys|
         && SentInFull(server.ladder, server.asOf[c], server.filter, held, viewer.base[c].buffer[..held.count])
         && (HitsOnly(server.filter) ==>
               ShowsCells(server.ladder, server.asOf[c].last, server.filter, held.level,
                          viewer.base[c].buffer[..held.count]))
  }

  lemma DrainedIsMirrored(server: LodServer, viewer: Viewer)
    requires server.Valid() && viewer.Valid() && server.InStep(viewer.Shown()) && server.wire == []
    ensures Mirrored(server, viewer)
  {
    hide Servable, Sound, ShowsCells, Unfiltered, SentInFull;
    var shown := viewer.Shown();
    assert Delivered(shown, []) == shown;
    assert (map c | c in shown :: |shown[c]|) == (map c | c in server.sent :: server.sent[c].count) by {
      forall c | c in shown ensures |shown[c]| == server.sent[c].count {
        assert Tracked(server.ladder, server.chunks[c], server.asOf[c], server.filter, server.sent[c], shown[c]);
      }
    }
    forall c | c in server.sent
      ensures viewer.base[c].count == server.sent[c].count
      ensures viewer.base[c].buffer[..server.sent[c].count] == shown[c]
      ensures Tracked(server.ladder, server.chunks[c], server.asOf[c], server.filter, server.sent[c], shown[c])
    {
      assert shown[c] == viewer.base[c].Shown();
    }
  }

  lemma DeliveredFirst(shown: map<Cell, seq<Point>>, wire: seq<Message>)
    requires |wire| > 0
    ensures Delivered(shown, wire) == Delivered(Show(shown, wire[0]), wire[1..])
  {
    DeliveredJoin(shown, [wire[0]], wire[1..]);
    DeliveredOne(shown, wire[0]);
    assert wire == [wire[0]] + wire[1..];
  }

  /** Hand the viewer the oldest message in flight. */
  method DeliverNext(server: LodServer, viewer: Viewer)
    requires server.Valid() && viewer.Valid() && server.InStep(viewer.Shown())
    modifies server`wire, viewer, viewer.base.Values, viewer.Buffers()
    ensures server.Valid() && viewer.Valid() && viewer.Separate() && server.InStep(viewer.Shown())
    ensures server.wire == if |old(server.wire)| > 0 then old(server.wire)[1..] else []
    ensures forall c :: c in viewer.base ==>
              (c in old(viewer.base) && viewer.base[c] == old(viewer.base)[c]) || fresh(viewer.base[c])
    ensures forall c :: c in viewer.base ==>
              (c in old(viewer.base) && viewer.base[c].buffer == old(viewer.base[c].buffer))
                  || fresh(viewer.base[c].buffer)
  {
    hide Tracks, Delivered, PointsIn;
    if |server.wire| > 0 {
      var m := server.wire[0];
      DeliveredFirst(viewer.Shown(), server.wire);
      server.wire := server.wire[1..];
      viewer.Receive(m);
    }
  }

  /** Something happens on the server's side. */
  method Handle(server: LodServer, event: Event, ghost rest: seq<Event>)
    requires server.Valid() && !event.Deliver? && Plausible(server.ladder, server.chunks, [event] + rest)
    modifies server
    ensures server.Valid() && Plausible(server.ladder, server.chunks, rest)
    ensures forall shown :: old(server.InStep(shown)) ==> server.InStep(shown)
  {
    hide Tracks, Delivered;
    assert ([event] + rest)[0] == event && ([event] + rest)[1..] == rest;
    match event
    case View(select) => server.OnViewerView(select);
    case Refresh(select) => server.RefreshLiveBases(select);
    case Fuse(grown, changed) => server.Grow(grown, changed);
    case Rebuild(rebuilt) => server.NotifySessionRebuilt(rebuilt);
  }

  /** One event, on either side. */
  method ServeOne(server: LodServer, viewer: Viewer, event: Event, ghost rest: seq<Event>)
    requires server.Valid() && viewer.Valid() && viewer.Separate() && server.InStep(viewer.Shown())
    requires Plausible(server.ladder, server.chunks, [event] + rest)
    modifies server, viewer, viewer.base.Values, viewer.Buffers()
    ensures server.Valid() && viewer.Valid() && viewer.Separate() && server.InStep(viewer.Shown())
    ensures Plausible(server.ladder, server.chunks, rest)
    ensures forall c :: c in viewer.base ==> viewer.base[c] in old(viewer.base.Values) || fresh(viewer.base[c])
    ensures forall c :: c in viewer.base ==>
              viewer.base[c].buffer in old(viewer.Buffers()) || fresh(viewer.base[c].buffer)
  {
    hide Tracks, Delivered, PointsIn, Servable, Sound, LodServer.InStep, LodServer.Valid, Viewer.Valid, Viewer.Shown;
    if event.Deliver? {
      assert ([event] + rest)[0] == event && ([event] + rest)[1..] == rest;
      DeliverNext(server, viewer);
    } else {
      ghost var shown := viewer.Shown();
      hide Plausible;
      Handle(server, event, rest);
      assert viewer.Shown() == shown;
    }
  }

  /** Any run of views, refreshes, fused batches, rebuilds and deliveries keeps server and viewer in step. */
  method Serve(server: LodServer, viewer: Viewer, events: seq<Event>)
    requires server.Valid() && viewer.Valid() && server.InStep(viewer.Shown())
    requires Plausible(server.ladder, server.chunks, events)
    modifies server, viewer, viewer.base.Values, viewer.Buffers()
    ensures server.Valid() && viewer.Valid() && server.InStep(viewer.Shown())
    ensures server.wire == [] ==> Mirrored(server, viewer)
  {
    assert viewer.Separate() && server.ladder.fuseVoxelMeters > 0.0;
    hide Tracks, Delivered, PointsIn, Servable, Sound, LodServer.InStep, LodServer.Valid, Viewer.Valid, Viewer.Separate,
        Viewer.Shown;
    for i := 0 to |events|
      invariant viewer.Separate()
      invariant server.Valid() && viewer.Valid() && server.InStep(viewer.Shown())
      invariant Plausible(server.ladder, server.chunks, events[i..])
      invariant forall c :: c in viewer.base ==> viewer.base[c] in old(viewer.base.Values) || fresh(viewer.base[c])
      invariant forall c :: c in viewer.base ==>
                  viewer.base[c].buffer in old(viewer.Buffers()) || fresh(viewer.base[c].buffer)
    {
      assert events[i..] == [events[i]] + events[i + 1..];
      hide Plausible;
      ServeOne(server, viewer, events[i], events[i + 1..]);
    }
    if server.wire == [] { DrainedIsMirrored(server, viewer); }
  }

  /** Fusing a batch is such a growth. */
  lemma FusingGrows(g: Setting, k: Key, c: Content, b: Batch)
    requires Wf(c.vox)
    ensures Grows(Fine(c.vox, c.opportunities), Fine(Observe(g, k, c, b).vox, Observe(g, k, c, b).opportunities))
  {
    AddPointsAppendOnly(g.voxelOf, c.vox, LandedIn(g, k, b), Observe(g, k, c, b).opportunities);
  }

  // ---------------------------------------------------------------- what refreshing costs

  function KeyframePoints(messages: seq<Message>): nat {
    if |messages| == 0 then 0
    else
      KeyframePoints(messages[..|messages| - 1])
      + match messages[|messages| - 1] case ChunkLod(_, _, _, points) => |points| case _ => 0
  }

  function DeltaPoints(messages: seq<Message>): nat {
    if |messages| == 0 then 0
    else
      DeltaPoints(messages[..|messages| - 1])
      + match messages[|messages| - 1] case ChunkDelta(_, _, _, points) => |points| case _ => 0
  }

  /** A chunk refreshed at one level after each stage of its growth, from a viewer that holds nothing. */
  function Streamed(ladder: Ladder, filter: Option<Filter>, chunk: Cell, level: nat, stages: seq<Fine>): Sending
    requires ladder.fuseVoxelMeters > 0.0 && forall i :: 0 <= i < |stages| ==> Sound(stages[i].vox)
  {
    if |stages| == 0 then Sending(None, [])
    else
      var before := Streamed(ladder, filter, chunk, level, stages[..|stages| - 1]);
      var s := Refreshed(ladder, stages[|stages| - 1], filter, before.held, chunk, Some(level));
      Sending(s.held, before.messages + s.messages)
  }

  /** What the stream has cost so far, against what the viewer holds. */
  ghost predicate Affordable(keys: seq<Cell>, j: nat, s: Sending) {
    match s.held
    case None => KeyframePoints(s.messages) == 0 && DeltaPoints(s.messages) == 0
    case Some(h) =>
      && 1 <= h.keyframeVersion <= h.version <= |keys|
      && h.count == |Unfiltered(keys, j, h.version)|
      && KeyframePoints(s.messages) <= 2 * h.keyframeVersion
      && DeltaPoints(s.messages) <= h.count
  }

  lemma CostOfOne(messages: seq<Message>, more: seq<Message>)
    requires |more| <= 1
    ensures KeyframePoints(messages + more) == KeyframePoints(messages) + KeyframePoints(more)
    ensures DeltaPoints(messages + more) == DeltaPoints(messages) + DeltaPoints(more)
  {
    if |more| == 1 {
      assert (messages + more)[..|messages|] == messages;
      assert more[..0] == [];
    } else {
      assert messages + more == messages;
    }
  }

  /** One refresh at an unchanged level. */
  lemma RefreshIsAffordable(ladder: Ladder, f: Fine, filter: Option<Filter>, chunk: Cell, level: nat, before: Sending)
    requires Servable(ladder, f) && Sound(f.vox) && !Filtering(filter)
    requires Affordable(f.vox.keys, Doublings(ladder, level), before)
    requires before.held.Some? ==> before.held.value.level == level
    ensures var s := Refreshed(ladder, f, filter, before.held, chunk, Some(level));
            && Affordable(f.vox.keys, Doublings(ladder, level), Sending(s.held, before.messages + s.messages))
            && (s.held.Some? ==> s.held.value.level == level)
  {
    var keys, j, n := f.vox.keys, Doublings(ladder, level), |f.vox.keys|;
    var s := Refreshed(ladder, f, filter, before.held, chunk, Some(level));
    var gridOf := Grid(LevelVoxelMeters(ladder, level));
    var full := Derived(ladder, f, level, filter, 0);
    UnfilteredCells(ladder, f, level, filter, 0);
    LevelBounded(keys, AllPass(n), j, n);
    assert Unfiltered(keys, j, 0) == [];
    assert |CellsOf(full.points, gridOf)| == |full.points| == |Unfiltered(keys, j, n)|;
    FirstCell(keys, j, n);
    if before.held.Some? {
      var h := before.held.value;
      var delta := Derived(ladder, f, level, filter, h.version);
      UnfilteredCells(ladder, f, level, filter, h.version);
      assert |CellsOf(delta.points, gridOf)| == |delta.points|;
      assert delta.total == h.count + |delta.points|;
    }
    hide Derived, Unfiltered, WellKeyed, KeyframePoints, DeltaPoints;
    CostOfOne(before.messages, s.messages);
    CostOfSending(s.messages);
  }

  lemma CostOfSending(messages: seq<Message>)
    requires |messages| <= 1
    ensures messages == [] ==> KeyframePoints(messages) == 0 == DeltaPoints(messages)
    ensures |messages| == 1 ==>
              match messages[0]
              case ChunkLod(_, _, _, points) => KeyframePoints(messages) == |points| && DeltaPoints(messages) == 0
              case ChunkDelta(_, _, _, points) => KeyframePoints(messages) == 0 && DeltaPoints(messages) == |points|
              case _ => KeyframePoints(messages) == 0 && DeltaPoints(messages) == 0
  {
  }

  /** A chunk with a voxel has a cell at every level. */
  lemma FirstCell(keys: seq<Cell>, j: nat, n: nat)
    requires n <= |keys|
    ensures n > 0 ==> |Unfiltered(keys, j, n)| > 0
  {
    if n > 0 {
      LevelGrows(keys, AllPass(|keys|), j, 1, n);
      assert Level(keys, AllPass(|keys|), j, 0) == [];
      assert |Level(keys, AllPass(|keys|), j, 1)| == 1;
    }
  }

  /**
   * However often a growing chunk is refreshed, its keyframes carry at most twice its final voxels
   * in all, and its deltas at most its final cells.
   */
  lemma {:induction false} RefreshCostIsAmortised(ladder: Ladder, filter: Option<Filter>, chunk: Cell, level: nat,
                                                  stages: seq<Fine>)
    requires WellFormed(ladder) && !Filtering(filter) && |stages| > 0
    requires forall i :: 0 <= i < |stages| ==> Servable(ladder, stages[i]) && Sound(stages[i].vox)
    requires forall i :: 0 < i < |stages| ==> Grows(stages[i - 1], stages[i])
    ensures var last, s := stages[|stages| - 1].vox.keys, Streamed(ladder, filter, chunk, level, stages);
            && Affordable(last, Doublings(ladder, level), s)
            && (s.held.Some? ==> s.held.value.level == level)
            && KeyframePoints(s.messages) <= 2 * |last|
            && DeltaPoints(s.messages) <= |Unfiltered(last, Doublings(ladder, level), |last|)|
    decreases |stages|
  {
    hide Servable, Refreshed, Sound, Level, Derived;
    var init, f, j := stages[..|stages| - 1], stages[|stages| - 1], Doublings(ladder, level);
    var before := Streamed(ladder, filter, chunk, level, init);
    if |init| > 0 {
      RefreshCostIsAmortised(ladder, filter, chunk, level, init);
      StillAffordable(stages[|stages| - 2].vox.keys, f.vox.keys, j, before);
    }
    RefreshIsAffordable(ladder, f, filter, chunk, level, before);
    var s := Streamed(ladder, filter, chunk, level, stages);
    if s.held.Some? {
      LevelGrows(f.vox.keys, AllPass(|f.vox.keys|), j, s.held.value.version, |f.vox.keys|);
    }
  }

  lemma StillAffordable(keys: seq<Cell>, keys': seq<Cell>, j: nat, s: Sending)
    requires keys <= keys' && Affordable(keys, j, s)
    ensures Affordable(keys', j, s)
  {
    if s.held.Some? { UnfilteredGrows(keys, keys', j, s.held.value.version); }
  }
}
