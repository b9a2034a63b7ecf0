/** The viewer's side of the base layer: growable point buffers per chunk. */
module LodViewers {
  import opened Voxels
  import opened LodServers

  const ORIGIN := Point(Vec(0.0, 0.0, 0.0), 0, 0, 0, 0)

  /** Spare room for a chunk of `count` points: half as many again, and at least 64. */
  function Roomy(count: nat): nat {
    Max(64, (3 * count + 1) / 2)
  }

  // ---------------------------------------------------------------- one chunk's buffer

  class BaseChunk {
    var buffer: array<Point>
    var count: nat

    ghost predicate Valid() reads this {
      count <= buffer.Length
    }

    ghost function Shown(): seq<Point>
      reads this, buffer
      requires Valid()
    {
      buffer[..count]
    }

    constructor (points: seq<Point>)
      ensures Valid() && Shown() == points && fresh(buffer)
      ensures buffer.Length == Roomy(|points|) && count == |points|
      ensures buffer.Length >= 64 && 2 * buffer.Length >= 3 * |points|
      ensures buffer.Length == 64 || 2 * buffer.Length <= 3 * |points| + 1
    {
      var capacity := Roomy(|points|);
      var room := new Point[capacity](_ => ORIGIN);
      Decode(room, 0, points);
      buffer := room;
      count := |points|;
    }

    /** Append points, moving to a buffer at least twice as large when they do not fit. */
    method Append(points: seq<Point>)
      requires Valid()
      modifies this, buffer
      ensures Valid() && Shown() == old(Shown()) + points && count == old(count) + |points|
      ensures buffer == old(buffer) || fresh(buffer)
      ensures buffer.Length == if old(count) + |points| <= old(buffer.Length) then old(buffer.Length)
                               else Max(old(count) + |points|, 2 * old(buffer.Length))
      ensures buffer != old(buffer) ==> old(count) + |points| > old(buffer.Length)
                                        && buffer.Length >= 2 * old(buffer.Length)
    {
      var needed := count + |points|;
      if needed > buffer.Length {
        var larger := new Point[Max(needed, 2 * buffer.Length)](_ => ORIGIN);
        Decode(larger, 0, buffer[..count]);
        buffer := larger;
      }
      assert buffer[..count] == old(Shown());
      Decode(buffer, count, points);
      assert buffer[..needed] == buffer[..count] + buffer[count..needed];
      count := needed;
    }
  }

  /** Write points into a buffer from an offset on. */
  method Decode(buffer: array<Point>, offset: nat, points: seq<Point>)
    requires offset + |points| <= buffer.Length
    modifies buffer
    ensures buffer[offset..offset + |points|] == points
    ensures buffer[..offset] == old(buffer[..offset])
  {
    for i := 0 to |points|
      invariant buffer[offset..offset + i] == points[..i]
      invariant buffer[..offset] == old(buffer[..offset])
    {
      buffer[offset + i] := points[i];
      assert buffer[offset..offset + i + 1] == buffer[offset..offset + i] + [points[i]];
    }
  }

  // ---------------------------------------------------------------- counting points

  ghost function Sum(counts: map<Cell, nat>): nat {
    if counts == map[] then 0
    else
      var c :| c in counts;
      counts[c] + Sum(counts - {c})
  }

  lemma {:induction false} SumWithout(counts: map<Cell, nat>, c: Cell)
    requires c in counts
    ensures Sum(counts) == counts[c] + Sum(counts - {c})
    decreases |counts|
  {
    var d :| d in counts && Sum(counts) == counts[d] + Sum(counts - {d});
    if d != c {
      SumWithout(counts - {d}, c);
      SumWithout(counts - {c}, d);
      assert counts - {d} - {c} == counts - {c} - {d};
    }
  }

  ghost function PointsIn(shown: map<Cell, seq<Point>>): nat {
    Sum(map c | c in shown :: |shown[c]|)
  }

  lemma PointsInWithout(shown: map<Cell, seq<Point>>, c: Cell)
    requires c in shown
    ensures PointsIn(shown) == |shown[c]| + PointsIn(shown - {c})
  {
    var counts: map<Cell, nat> := map d | d in shown :: |shown[d]|;
    SumWithout(counts, c);
    assert counts - {c} == map d | d in shown - {c} :: |(shown - {c})[d]|;
  }

  lemma PointsInPut(shown: map<Cell, seq<Point>>, c: Cell, points: seq<Point>)
    ensures PointsIn(shown[c := points]) == PointsIn(shown - {c}) + |points|
  {
    PointsInWithout(shown[c := points], c);
    assert shown[c := points] - {c} == shown - {c};
  }

  lemma Replaced(shown: map<Cell, seq<Point>>, c: Cell, points: seq<Point>)
    ensures (shown - {c})[c := points] == shown[c := points]
  {
  }

  // ---------------------------------------------------------------- the viewer

  class Viewer {
    var base: map<Cell, BaseChunk>
    var basePointCount: int

    /** Chunks have buffers of their own. */
    ghost predicate Separate()
      reads this, base.Values
    {
      && (forall c, d :: c in base && d in base && c != d ==> base[c] != base[d] && base[c].buffer != base[d].buffer)
      && (forall c :: c in base ==> base[c].Valid())
    }

    ghost function Buffers(): set<object>
      reads this, base.Values
    {
      set c | c in base :: base[c].buffer
    }

    ghost function Shown(): map<Cell, seq<Point>>
      reads this, base.Values, Buffers()
      requires Separate()
    {
      map c | c in base :: base[c].Shown()
    }

    ghost predicate Valid()
      reads this, base.Values, Buffers()
    {
      Separate() && basePointCount == PointsIn(Shown())
    }

    constructor ()
      ensures Valid() && base == map[] && Shown() == map[]
    {
      base := map[];
      basePointCount := 0;
    }

    /** The contents of the chunks, whatever object holds them. */
    lemma ShownIs(shown: map<Cell, seq<Point>>)
      requires Separate() && base.Keys == shown.Keys
      requires forall c :: c in base ==> base[c].Shown() == shown[c]
      ensures Shown() == shown
    {
    }

    method DisposeBaseChunk(chunk: Cell)
      requires Valid()
      modifies this
      ensures Valid() && Shown() == old(Shown()) - {chunk}
      ensures base == old(base) - {chunk}
    {
      hide PointsIn;
      ghost var shown := Shown();
      if chunk !in base {
        assert base - {chunk} == base && shown - {chunk} == shown;
        return;
      }
      PointsInWithout(shown, chunk);
      basePointCount := basePointCount - base[chunk].count;
      base := base - {chunk};
      ShownIs(shown - {chunk});
    }

    method IngestBaseChunk(chunk: Cell, points: seq<Point>)
      requires Valid()
      modifies this
      ensures Valid() && Shown() == old(Shown())[chunk := points]
      ensures base.Keys == old(base).Keys + {chunk} && fresh(base[chunk]) && fresh(base[chunk].buffer)
      ensures forall c :: c in base && c != chunk ==> c in old(base) && base[c] == old(base)[c]
      ensures base[chunk].buffer.Length == Roomy(|points|)
    {
      hide PointsIn;
      ghost var shown := Shown();
      DisposeBaseChunk(chunk);
      var entry := new BaseChunk(points);
      ShownIs(shown - {chunk});
      PutBaseChunk(chunk, entry);
      Replaced(shown, chunk, points);
    }

    /** Take in a chunk that is not shown yet. */
    method PutBaseChunk(chunk: Cell, entry: BaseChunk)
      requires Valid() && chunk !in base && entry.Valid()
      requires forall c :: c in base ==> base[c] != entry && base[c].buffer != entry.buffer
      modifies this
      ensures Valid() && base == old(base)[chunk := entry] && Shown() == old(Shown())[chunk := entry.Shown()]
    {
      hide PointsIn;
      ghost var shown := Shown();
      PointsInPut(shown, chunk, entry.Shown());
      assert shown - {chunk} == shown;
      base := base[chunk := entry];
      basePointCount := basePointCount + entry.count;
      ShownIs(shown[chunk := entry.Shown()]);
    }

    method AppendBaseChunk(chunk: Cell, points: seq<Point>)
      requires Valid()
      modifies this, base.Values, Buffers()
      ensures Valid()
      ensures Shown() == old(Shown())[chunk := (if chunk in old(base) then old(Shown())[chunk] else []) + points]
      ensures base.Keys == old(base).Keys + {chunk}
      ensures forall c :: c in base ==> (c in old(base) && base[c] == old(base)[c]) || fresh(base[c])
      ensures forall c :: c in base ==>
                (c in old(base) && base[c].buffer == old(base[c].buffer)) || fresh(base[c].buffer)
    {
      hide PointsIn;
      if chunk !in base {
        IngestBaseChunk(chunk, points); // the keyframe was never seen: take it as one
        assert [] + points == points;
      } else {
        AppendTo(chunk, base[chunk], points);
      }
    }

    /** Growing one chunk's buffer leaves the others alone. */
    method AppendTo(chunk: Cell, entry: BaseChunk, points: seq<Point>)
      requires Valid() && chunk in base && base[chunk] == entry
      modifies this`basePointCount, entry, entry.buffer
      ensures Valid() && Shown() == old(Shown())[chunk := old(Shown())[chunk] + points]
      ensures entry.buffer == old(entry.buffer) || fresh(entry.buffer)
    {
      hide PointsIn;
      ghost var shown := Shown();
      PointsInWithout(shown, chunk);
      PointsInPut(shown, chunk, shown[chunk] + points);
      basePointCount := basePointCount + |points|;
      entry.Append(points);
      ShownIs(shown[chunk := shown[chunk] + points]);
    }

    method ResetCloud()
      requires Valid()
      modifies this
      ensures Valid() && Shown() == map[] && base == map[]
    {
      var todo := base.Keys;
      while todo != {}
        invariant Valid() && base.Keys == todo && forall c :: c in base ==> c in old(base) && base[c] == old(base)[c]
        decreases todo
      {
        var c :| c in todo;
        DisposeBaseChunk(c);
        todo := todo - {c};
      }
      assert base == map[] && Shown() == map[];
    }

    /** Handle one message of the connection. */
    method Receive(m: Message)
      requires Valid()
      modifies this, base.Values, Buffers()
      ensures Valid() && Shown() == Show(old(Shown()), m)
      ensures forall c :: c in base ==> (c in old(base) && base[c] == old(base)[c]) || fresh(base[c])
      ensures forall c :: c in base ==>
                (c in old(base) && base[c].buffer == old(base[c].buffer)) || fresh(base[c].buffer)
    {
      hide PointsIn;
      match m
      case ChunkLod(c, _, _, points) => IngestBaseChunk(c, points);
      case ChunkDelta(c, _, _, points) => AppendBaseChunk(c, points);
      case ChunkDrop(c) => DisposeBaseChunk(c);
      case SessionRebuilt => ResetCloud();
    }
  }
}
