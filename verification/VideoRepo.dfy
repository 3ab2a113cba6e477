// The repository: each method is one SQL statement (ReclaimStale: two) that
// updates the table in place. The contracts state the new columns, and that they
// are those of the row functions the protocol uses.
module VideoRepository {
  import opened Prelude
  import opened VideoTable

  datatype RepoError = NotFound | DuplicateId

  datatype ClaimedJob = ClaimedJob(video: VideoId, originalPath: string, attempts: int)

  // The rows returned by one UPDATE ... RETURNING id come in no particular order.
  ghost predicate Lists(ids: seq<VideoId>, s: set<VideoId>) {
    (forall id :: id in ids <==> id in s) && forall i, j | 0 <= i < j < |ids| :: ids[i] != ids[j]
  }

  // What a reclaim pass without interference makes of each row.
  ghost predicate ReclaimedColumns(
      t: Table, t': Table, requeued: seq<VideoId>, failed: seq<VideoId>, now1: Time, now2: Time, staleAfter: Time, max: int)
  {
    t'.Keys == t.Keys
    && forall id | id in t ::
         var (r, r') := (t[id], t'[id]);
         var stale1 := r.status.Processing? && r.heartbeatAt.Some? && r.heartbeatAt.value < now1 - staleAfter;
         var stale2 := r.status.Processing? && r.heartbeatAt.Some? && r.heartbeatAt.value < now2 - staleAfter;
         if stale1 && r.attempts < max then
           id in requeued && r' == r.(status := Pending, progress := 0, claimedAt := None, heartbeatAt := None)
         else if stale2 && r.attempts >= max then
           id in failed && r' == r.(status := Failed, claimedAt := None, heartbeatAt := None, error := Some(
             "transcoding was interrupted repeatedly and the retry budget is exhausted"))
         else id !in requeued && id !in failed && r' == r
  }

  lemma PassColumns(
      t: Table, requeued: seq<VideoId>, failed: seq<VideoId>, now1: Time, now2: Time, staleAfter: Time, max: int)
    requires Lists(requeued, set id | id in t && HitByRequeue(t[id], now1, staleAfter, max))
    requires Lists(failed, set id | id in t && HitByFail(t[id], now2, staleAfter, max))
    ensures ReclaimedColumns(t, FailStale(RequeueStale(t, now1, staleAfter, max), now2, staleAfter, max),
                             requeued, failed, now1, now2, staleAfter, max)
  {
  }

  method Collect(returned: set<VideoId>) returns (ids: seq<VideoId>)
    ensures Lists(ids, returned)
  {
    ids := [];
    var rows := returned;
    while rows != {}
      invariant rows <= returned
      invariant Lists(ids, returned - rows)
      decreases |rows|
    {
      var id :| id in rows;
      rows := rows - {id};
      ids := ids + [id];
    }
  }

  class VideoRepo {
    var videos: Table

    constructor ()
      ensures videos == map[]
    {
      videos := map[];
    }

    method CreateWithID(id: VideoId, path: string, now: Time) returns (r: Result<Row, RepoError>)
      modifies this
      ensures id in old(videos) ==> r == Err(DuplicateId) && videos == old(videos)
      ensures id !in old(videos) ==> r.Ok? && videos == old(videos)[id := r.value]
      ensures r.Ok? ==> r.value.status.Pending? && r.value.createdAt == now && r.value.originalPath == path
                        && r.value.attempts == 0 && r.value.progress == 0 && r.value.error.None?
                        && r.value.claimedAt.None? && r.value.heartbeatAt.None? && r.value == NewRow(path, now)
    {
      if id in videos {
        return Err(DuplicateId);
      }
      var row := Row(Pending, 0, 0, None, None, None, now, path);
      videos := videos[id := row];
      r := Ok(row);
    }

    method DeleteByID(id: VideoId) returns (r: Result<(), RepoError>)
      modifies this
      ensures videos == old(videos) - {id}
      ensures r == if id in old(videos) then Ok(()) else Err(NotFound)
    {
      if id !in videos {
        assert videos == videos - {id};
        return Err(NotFound);
      }
      videos := videos - {id};
      r := Ok(());
    }

    method UpdateStatus(id: VideoId, status: Status, error: Option<string>)
      modifies this
      ensures id in old(videos) ==> videos == old(videos)[id := WithStatus(old(videos)[id], status, error)]
      ensures videos == if id in old(videos)
                        then old(videos)[id := old(videos)[id].(status := status, error := error)]
                        else old(videos)
    {
      if id in videos {
        videos := videos[id := videos[id].(status := status, error := error)];
      }
    }

    method SetProgress(id: VideoId, pct: int)
      modifies this
      ensures id in old(videos) ==> videos == old(videos)[id := WithProgress(old(videos)[id], pct)]
      ensures videos == if id in old(videos)
                        then old(videos)[id := old(videos)[id].(progress := pct)]
                        else old(videos)
    {
      if id in videos {
        videos := videos[id := videos[id].(progress := pct)];
      }
    }

    // `locked` are the rows locked by other transactions, which SKIP LOCKED passes over.
    method ClaimNextPending(now: Time, locked: set<VideoId>) returns (r: Result<ClaimedJob, RepoError>)
      modifies this
      ensures r.Err? ==> r.error == NotFound && videos == old(videos)
                         && forall id | id in videos && videos[id].status.Pending? :: id in locked
      ensures r.Ok? ==>
                var id := r.value.video;
                id in old(videos) && old(videos)[id].status.Pending? && id !in locked
                && (forall other | other in old(videos) && old(videos)[other].status.Pending? && other !in locked ::
                      old(videos)[id].createdAt <= old(videos)[other].createdAt)
                && videos == old(videos)[id := old(videos)[id].(
                     status := Processing, attempts := old(videos)[id].attempts + 1, progress := 0,
                     error := None, claimedAt := Some(now), heartbeatAt := Some(now))]
                && r.value == ClaimedJob(id, old(videos)[id].originalPath, old(videos)[id].attempts + 1)
      ensures r.Ok? ==>
                var id := r.value.video;
                OldestCandidate(old(videos), locked, id) && videos[id] == Claimed(old(videos)[id], now)
    {
      if !exists id | id in videos :: Candidate(videos, locked, id) {
        return Err(NotFound);
      }
      ghost var some :| some in videos && Candidate(videos, locked, some);
      OldestExists(videos, locked, some);
      var id :| id in videos && OldestCandidate(videos, locked, id);
      var row := videos[id];
      videos := videos[id := row.(status := Processing, attempts := row.attempts + 1, progress := 0,
                                  error := None, claimedAt := Some(now), heartbeatAt := Some(now))];
      r := Ok(ClaimedJob(id, row.originalPath, row.attempts + 1));
    }

    method Heartbeat(id: VideoId, now: Time)
      modifies this
      ensures id in old(videos) ==> videos == old(videos)[id := Beaten(old(videos)[id], now)]
      ensures videos == if id in old(videos) && old(videos)[id].status.Processing?
                        then old(videos)[id := old(videos)[id].(heartbeatAt := Some(now))]
                        else old(videos)
    {
      if id in videos && videos[id].status == Processing {
        videos := videos[id := videos[id].(heartbeatAt := Some(now))];
      }
    }

    method Release(id: VideoId)
      modifies this
      ensures id in old(videos) ==> videos == old(videos)[id := Released(old(videos)[id])]
      ensures videos == if id in old(videos) && old(videos)[id].status.Processing?
                        then old(videos)[id := old(videos)[id].(status := Pending, attempts := Max(old(videos)[id].attempts - 1, 0),
                                                           progress := 0, claimedAt := None, heartbeatAt := None)]
                        else old(videos)
    {
      if id in videos && videos[id].status == Processing {
        var row := videos[id];
        videos := videos[id := row.(status := Pending, attempts := Max(row.attempts - 1, 0), progress := 0,
                                    claimedAt := None, heartbeatAt := None)];
      }
    }

    method Requeue(id: VideoId)
      modifies this
      ensures id in old(videos) ==> videos == old(videos)[id := Requeued(old(videos)[id])]
      ensures videos == if id in old(videos) && old(videos)[id].status.Processing?
                        then old(videos)[id := old(videos)[id].(status := Pending, progress := 0,
                                                           claimedAt := None, heartbeatAt := None)]
                        else old(videos)
    {
      if id in videos && videos[id].status == Processing {
        videos := videos[id := videos[id].(status := Pending, progress := 0, claimedAt := None, heartbeatAt := None)];
      }
    }

    // Both updates run here without interference; QueueReclaim proves what a
    // pass guarantees when other statements run between them.
    method ReclaimStale(now1: Time, now2: Time, staleAfter: Time, max: int)
      returns (requeued: seq<VideoId>, failed: seq<VideoId>)
      modifies this
      ensures videos == FailStale(RequeueStale(old(videos), now1, staleAfter, max), now2, staleAfter, max)
      ensures ReclaimedColumns(old(videos), videos, requeued, failed, now1, now2, staleAfter, max)
      ensures Lists(requeued, set id | id in old(videos) && HitByRequeue(old(videos)[id], now1, staleAfter, max))
      ensures Lists(failed, set id | id in old(videos) && HitByFail(old(videos)[id], now2, staleAfter, max))
    {
      ghost var before := videos;
      var hit := set id | id in videos && HitByRequeue(videos[id], now1, staleAfter, max);
      videos := map id | id in videos :: if id in hit then Unclaimed(videos[id], videos[id].attempts) else videos[id];
      assert videos == RequeueStale(before, now1, staleAfter, max);
      requeued := Collect(hit);

      hit := set id | id in videos && HitByFail(videos[id], now2, staleAfter, max);
      assert hit == set id | id in before && HitByFail(before[id], now2, staleAfter, max);
      videos := map id | id in videos :: ReclaimFailed(videos[id], now2, staleAfter, max);
      failed := Collect(hit);
      PassColumns(before, requeued, failed, now1, now2, staleAfter, max);
    }
  }
}
