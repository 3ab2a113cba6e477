// The end of Worker.process: the upload of the files, then the write of `ready`,
// whose context survives the cancellation of the job.
module PublishVideo {
  import opened Prelude
  import opened VideoTable
  import opened VideoRepository
  import UploadFanOut

  function PublishedRow(r: Row): Row { r.(status := Ready, progress := 100, error := None) }

  // The table afterwards. `uploaded` is the result of the upload, `applied` tells
  // whether the write of `ready` reached the database.
  function Published(t: Table, id: VideoId, uploaded: bool, applied: bool): Table {
    if !uploaded || id !in t then t
    else if applied then t[id := PublishedRow(t[id])]
    else t[id := WithProgress(t[id], 100)]
  }

  // The write may have taken effect although its acknowledgement was lost.
  method Publish(repo: VideoRepo, id: VideoId, uploadError: Option<string>, applied: bool, acknowledged: bool)
    returns (failure: Option<string>)
    requires acknowledged ==> applied
    modifies repo
    ensures repo.videos == Published(old(repo.videos), id, uploadError.None?, applied)
    ensures uploadError.Some? || id !in old(repo.videos) ==> repo.videos == old(repo.videos)
    ensures uploadError.None? && id in old(repo.videos) ==>
              var r := old(repo.videos)[id].(progress := 100);
              repo.videos == old(repo.videos)[id := if applied then r.(status := Ready, error := None) else r]
    ensures failure.None? <==> uploadError.None? && acknowledged
  {
    if uploadError.Some? {
      return Some("upload HLS: " + uploadError.value);
    }
    repo.SetProgress(id, 95);
    repo.SetProgress(id, 100);
    if applied {
      repo.UpdateStatus(id, Ready, None);
    }
    failure := if acknowledged then None else Some("set ready status");
  }

  // The upload of a video's files has returned.
  ghost predicate Uploaded(files: nat, states: seq<UploadFanOut.State>, steps: seq<UploadFanOut.Step>) {
    UploadFanOut.IsRun(files, states, steps) && states[|steps|].pc.Returned?
  }

  // A video that becomes ready has all its files stored exactly if no file was
  // checked after the shutdown of the worker began.
  lemma ReadyIsCompleteExactly(
      files: nat, states: seq<UploadFanOut.State>, steps: seq<UploadFanOut.Step>, t: Table, id: VideoId, applied: bool)
    requires Uploaded(files, states, steps) && id in t && t[id].status.Processing?
    ensures var t' := Published(t, id, states[|steps|].pc.ok, applied);
            t'[id].status.Ready? ==>
              (UploadFanOut.AllStored(states[|steps|]) <==> !UploadFanOut.ChecksLate(states, steps, |steps|))
  {
    if states[|steps|].pc.ok {
      UploadFanOut.NilStoredAllExactly(files, states, steps, |steps|);
    }
  }

  // Without knowing about shutdowns, `ready` promises stored files only for a
  // video that has none.
  lemma ReadyIsCompleteOnlyWithoutFiles(files: nat, t: Table, id: VideoId)
    requires id in t && t[id].status.Processing?
    ensures (forall states: seq<UploadFanOut.State>, steps: seq<UploadFanOut.Step> | Uploaded(files, states, steps) ::
               Published(t, id, states[|steps|].pc.ok, true)[id].status.Ready? ==>
                 UploadFanOut.AllStored(states[|steps|]))
            <==> files == 0
  {
    if files == 0 {
      UploadFanOut.TrustworthyOnlyWithoutFiles(files);
    } else {
      var states, steps := UploadFanOut.CancelledCallerMayGetNil(files);
      assert Uploaded(files, states, steps) && Published(t, id, true, true)[id].status.Ready?;
    }
  }
}
