/** Session records: sequence numbers, totals and poses of the sessions the server knows. */
module SessionStores {
  import opened Voxels
  import opened Poses
  import opened LogHistory
  import opened BatchLog

  /** A session in memory; `poses` keeps the retained poses in the order they were sent. */
  datatype SessionRecord = SessionRecord(publisher: string, closed: bool, lastSequence: nat,
                                         lastPoseSequence: Option<nat>,
                                         totalPoints: nat, pointBatches: nat, poses: seq<(nat, Pose)>)

  /** What the sessions table keeps of it: everything but the poses. */
  datatype SessionRow = SessionRow(publisher: string, closed: bool, lastSequence: nat, lastPoseSequence: Option<nat>,
                                   totalPoints: nat, pointBatches: nat)

  function RowOf(s: SessionRecord): SessionRow {
    SessionRow(s.publisher, s.closed, s.lastSequence, s.lastPoseSequence, s.totalPoints, s.pointBatches)
  }

  function Restored(row: SessionRow): SessionRecord {
    SessionRecord(row.publisher, row.closed, row.lastSequence, row.lastPoseSequence, row.totalPoints, row.pointBatches,
                  [])
  }

  datatype Refusal =
    | UnknownSession | PublisherMismatch | SessionClosed | OutOfSequence | Malformed | UnknownPose | AlreadyCommitted

  datatype Outcome = Accepted | Redelivered | Refused(why: Refusal)

  function PoseFor(poses: seq<(nat, Pose)>, sequence: nat): Option<Pose> {
    if |poses| == 0 then None
    else if poses[|poses| - 1].0 == sequence then Some(poses[|poses| - 1].1)
    else PoseFor(poses[..|poses| - 1], sequence)
  }

  /** The record after a self-contained batch is committed: reopened, counted, and moved on. */
  function AfterExternal(s: SessionRecord, h: Header): SessionRecord {
    s.(closed := false, pointBatches := s.pointBatches + 1, totalPoints := s.totalPoints + h.pointCount,
       lastSequence := h.sequence, lastPoseSequence := Some(h.poseSequence))
  }

  /** The record after a batch over the publisher's connection is committed: counted and moved on. */
  function AfterBatch(s: SessionRecord, h: Header): SessionRecord {
    s.(pointBatches := s.pointBatches + 1, totalPoints := s.totalPoints + h.pointCount, lastSequence := h.sequence)
  }

  class SessionStore {
    var sessions: map<SessionId, SessionRecord>
    const maxRetainedPoses: nat

    /** Poses are kept in increasing sequence order, none ahead of the session, and not too many. */
    ghost predicate Valid() reads this {
      forall id :: id in sessions ==> WellPosed(sessions[id], maxRetainedPoses)
    }

    constructor (maxRetainedPoses: nat)
      ensures Valid() && sessions == map[] && this.maxRetainedPoses == maxRetainedPoses
    {
      sessions := map[];
      this.maxRetainedPoses := maxRetainedPoses;
    }

    /** Poses are not restored: a resumed publisher must send a fresh one first. */
    method RestoreSessions(rows: map<SessionId, SessionRow>)
      requires sessions == map[]
      modifies this
      ensures Valid() && sessions == map id | id in rows :: Restored(rows[id])
    {
      var todo := rows.Keys;
      while todo != {}
        invariant todo <= rows.Keys && sessions == map id | id in rows && id !in todo :: Restored(rows[id])
        decreases todo
      {
        var id :| id in todo;
        todo := todo - {id};
        sessions := sessions[id := Restored(rows[id])];
      }
    }

    // -------------------------------------------------------------- self-contained batches (pub/sub)

    /** Create the session, or reopen it when the same publisher announces it again. */
    method EnsureSession(id: SessionId, publisher: string, wellFormed: bool) returns (outcome: Outcome)
      modifies this
      ensures old(Valid()) ==> Valid()
      ensures outcome == if id in old(sessions) then
                           if old(sessions)[id].publisher == publisher then Accepted else Refused(PublisherMismatch)
                         else if wellFormed then Accepted else Refused(Malformed)
      ensures sessions == if outcome == Accepted then
                            old(sessions)[id := if id in old(sessions) then old(sessions)[id].(closed := false)
                                                else SessionRecord(publisher, false, 0, None, 0, 0, [])]
                          else old(sessions)
    {
      if id !in sessions {
        if !wellFormed { return Refused(Malformed); }
        sessions := sessions[id := SessionRecord(publisher, false, 0, None, 0, 0, [])];
        return Accepted;
      }
      if sessions[id].publisher != publisher { return Refused(PublisherMismatch); }
      sessions := sessions[id := sessions[id].(closed := false)];
      return Accepted;
    }

    method MarkClosed(id: SessionId) returns (outcome: Outcome)
      modifies this
      ensures old(Valid()) ==> Valid()
      ensures outcome == if id in old(sessions) then Accepted else Refused(UnknownSession)
      ensures sessions == if outcome == Accepted then old(sessions)[id := old(sessions)[id].(closed := true)]
              else old(sessions)
    {
      if id !in sessions { return Refused(UnknownSession); }
      sessions := sessions[id := sessions[id].(closed := true)];
      return Accepted;
    }

    /**
     * Check a batch that carries its own pose. A sequence at or below the last is a redelivery,
     * whatever else is wrong with it; `wellFormed` stands for the format, length, time and pose checks.
     */
    method PrepareExternalBatch(id: SessionId, r: Record, wellFormed: bool) returns (outcome: Outcome)
      ensures outcome == Redelivered <==> id in sessions && 0 < r.header.sequence <= sessions[id].lastSequence
      ensures outcome == Accepted <==> id in sessions && r.header.sequence > sessions[id].lastSequence && wellFormed
    {
      if id !in sessions { return Refused(UnknownSession); }
      if r.header.sequence == 0 { return Refused(Malformed); }
      if r.header.sequence <= sessions[id].lastSequence { return Redelivered; }
      if !wellFormed { return Refused(Malformed); }
      return Accepted;
    }

    method CommitExternalBatch(id: SessionId, h: Header) returns (outcome: Outcome)
      modifies this
      ensures old(Valid()) ==> Valid()
      ensures outcome == if id !in old(sessions) then Refused(UnknownSession)
                         else if h.sequence <= old(sessions)[id].lastSequence then Refused(AlreadyCommitted)
                             else Accepted
      ensures sessions == if outcome == Accepted then old(sessions)[id := AfterExternal(old(sessions)[id], h)]
              else old(sessions)
    {
      if id !in sessions { return Refused(UnknownSession); }
      if h.sequence <= sessions[id].lastSequence { return Refused(AlreadyCommitted); }
      sessions := sessions[id := AfterExternal(sessions[id], h)];
      return Accepted;
    }

    // -------------------------------------------------------------- a publisher's own connection

    /** What every message of a publisher must meet: its session, open, and exactly the next sequence. */
    function Admitted(id: SessionId, publisher: string, sequence: nat): (outcome: Outcome) reads this {
      if id !in sessions then Refused(UnknownSession)
      else if sessions[id].publisher != publisher then Refused(PublisherMismatch)
      else if sessions[id].closed then Refused(SessionClosed)
      else if sequence != sessions[id].lastSequence + 1 then Refused(OutOfSequence)
      else Accepted
    }

    /** Remember a pose and forget the oldest ones past the limit. */
    method ApplyPoseUpdate(id: SessionId, publisher: string, sequence: nat, pose: Pose, wellFormed: bool)
      returns (outcome: Outcome)
      requires Valid()
      modifies this
      ensures Valid()
      ensures outcome
              == if old(Admitted(id, publisher, sequence)) != Accepted then old(Admitted(id, publisher, sequence))
                         else if wellFormed then Accepted else Refused(Malformed)
      ensures outcome != Accepted ==> sessions == old(sessions)
      ensures outcome == Accepted ==>
                && id in sessions
                && var s, s' := old(sessions)[id], sessions[id];
                && sessions == old(sessions)[id := s']
                && s' == s.(lastSequence := s.lastSequence + 1, lastPoseSequence := Some(sequence), poses := s'.poses)
                && s'.poses == Latest(s.poses + [(sequence, pose)], maxRetainedPoses)
    {
      outcome := Admitted(id, publisher, sequence);
      if outcome != Accepted { return; }
      if !wellFormed { return Refused(Malformed); }
      var s := sessions[id];
      var poses := s.poses + [(sequence, pose)];
      var all := poses;
      while |poses| > maxRetainedPoses
        invariant Latest(poses, maxRetainedPoses) == Latest(all, maxRetainedPoses)
        invariant Ordered(poses, sequence)
      {
        poses := poses[1..];
      }
      sessions := sessions[id := s.(lastSequence := sequence, lastPoseSequence := Some(sequence), poses := poses)];
    }

    /** Check a batch sent over the publisher's connection; its pose must still be retained. */
    method PreparePointBatch(id: SessionId, publisher: string, h: Header, wellFormed: bool)
      returns (outcome: Outcome, pose: Option<Pose>)
      ensures outcome == if Admitted(id, publisher, h.sequence) != Accepted then Admitted(id, publisher, h.sequence)
                         else if !wellFormed || h.poseSequence == 0 then Refused(Malformed)
                         else if PoseFor(sessions[id].poses, h.poseSequence).None? then Refused(UnknownPose)
                             else Accepted
      ensures outcome == Accepted ==> pose.Some? && pose == PoseFor(sessions[id].poses, h.poseSequence)
    {
      pose := None;
      outcome := Admitted(id, publisher, h.sequence);
      if outcome != Accepted { return; }
      if !wellFormed || h.poseSequence == 0 { return Refused(Malformed), None; }
      pose := PoseFor(sessions[id].poses, h.poseSequence);
      if pose.None? { return Refused(UnknownPose), None; }
    }

    method CommitPointBatch(id: SessionId, h: Header) returns (outcome: Outcome)
      requires Valid() && id in sessions
      modifies this
      ensures Valid()
      ensures outcome == if h.sequence == old(sessions)[id].lastSequence + 1 then Accepted else Refused(OutOfSequence)
      ensures sessions == if outcome != Accepted then old(sessions)
                          else old(sessions)[id := AfterBatch(old(sessions)[id], h)]
    {
      var s := sessions[id];
      if h.sequence != s.lastSequence + 1 { return Refused(OutOfSequence); }
      sessions := sessions[id := AfterBatch(s, h)];
      return Accepted;
    }

    method CloseSession(id: SessionId, publisher: string, sequence: nat) returns (outcome: Outcome)
      requires Valid()
      modifies this
      ensures Valid() && outcome == old(Admitted(id, publisher, sequence))
      ensures sessions == if outcome != Accepted then old(sessions)
                          else old(sessions)[id := old(sessions)[id].(closed := true, lastSequence := sequence)]
    {
      outcome := Admitted(id, publisher, sequence);
      if outcome != Accepted { return; }
      sessions := sessions[id := sessions[id].(closed := true, lastSequence := sequence)];
    }

    /** Reopen a session for its publisher; what was sent before must not be ahead of what is known. */
    method ResumeSession(id: SessionId, publisher: string, clientSequence: nat) returns (outcome: Outcome)
      requires Valid()
      modifies this
      ensures Valid()
      ensures outcome == if id !in old(sessions) then Refused(UnknownSession)
                         else if old(sessions)[id].publisher != publisher then Refused(PublisherMismatch)
                         else if clientSequence > old(sessions)[id].lastSequence then Refused(OutOfSequence)
                             else Accepted
      ensures sessions == if outcome != Accepted then old(sessions)
                          else old(sessions)[id := old(sessions)[id].(closed := false, poses := [])]
    {
      if id !in sessions { return Refused(UnknownSession); }
      if sessions[id].publisher != publisher { return Refused(PublisherMismatch); }
      if clientSequence > sessions[id].lastSequence { return Refused(OutOfSequence); }
      sessions := sessions[id := sessions[id].(closed := false, poses := [])];
      return Accepted;
    }
  }

  /** Pose sequences increase and stay at or below a bound. */
  ghost predicate Ordered(poses: seq<(nat, Pose)>, bound: nat) {
    && (forall i, j :: 0 <= i < j < |poses| ==> poses[i].0 < poses[j].0)
    && (forall i :: 0 <= i < |poses| ==> poses[i].0 <= bound)
  }

  ghost predicate WellPosed(s: SessionRecord, max: nat) {
    Ordered(s.poses, s.lastSequence) && |s.poses| <= max
  }

  function Latest<T>(items: seq<T>, max: nat): seq<T> {
    if |items| <= max then items else items[|items| - max..]
  }

  /** The pose a batch refers to, when found, is the one sent under that sequence. */
  lemma {:induction false} PoseForFinds(poses: seq<(nat, Pose)>, bound: nat, i: nat)
    requires Ordered(poses, bound) && i < |poses|
    ensures PoseFor(poses, poses[i].0) == Some(poses[i].1)
    decreases |poses|
  {
    if i < |poses| - 1 { PoseForFinds(poses[..|poses| - 1], bound, i); }
  }
}
