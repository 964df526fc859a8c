/** The sweeper's task list and the proof-of-resolution upload. */
module SweeperDashboard {
  import opened Types
  import opened Store
  import opened Filtering

  /** What a successful proof upload writes: the photo and the status. */
  function AfterPhotoPatch(url: string): Patch {
    EmptyPatch.(afterImage := Some(Some(url)), status := Some(Review))
  }

  /** The subscription filters of the sweeper with uid `uid`. */
  function TaskFilters(uid: string): Filters {
    Filters(None, Some(uid))
  }

  /** The upload button of a task; otherwise the task shows "under review". */
  predicate UploadOffered(c: Complaint) {
    c.status != Review
  }

  /** The task list built from a snapshot of the sweeper's subscription holds
      exactly the complaints assigned to that sweeper that are not closed, and
      its length is the pending count shown in the header. */
  lemma TaskListIsOpenAssignments(complaints: map<string, Complaint>, uid: string, snapshot: seq<Complaint>)
    requires IsSnapshot(complaints, BySweeper(uid), snapshot)
    ensures forall c :: c in Unfinished(snapshot) <==>
      c in complaints.Values && c.assignedSweeperId == Some(uid) && c.status != Done
    ensures forall c :: multiset(Unfinished(snapshot))[c] <= 1
  {
    OpenTasksOnce(snapshot, complaints, BySweeper(uid));
  }

  /** Filtering a snapshot keeps every record at most once. */
  lemma OpenTasksOnce(snapshot: seq<Complaint>, complaints: map<string, Complaint>, sel: Selection)
    requires IsSnapshot(complaints, sel, snapshot)
    ensures forall c :: multiset(Unfinished(snapshot))[c] <= 1
  {
    forall c ensures multiset(Unfinished(snapshot))[c] <= 1 {
      if c.status != Done {
        UnfinishedKeepsMultiplicity(snapshot, c);
      } else {
        assert c !in Unfinished(snapshot);
      }
    }
  }

  /** A list that holds each record at most once is as long as the set of its
      records, so the header count is the number of distinct open tasks. */
  lemma {:induction false} CountOfRepetitionFree(s: seq<Complaint>)
    requires forall c :: multiset(s)[c] <= 1
    ensures |s| == |set c | c in s|
  {
    if |s| > 0 {
      var rest := s[1..];
      assert s == [s[0]] + rest;
      assert multiset(s) == multiset{s[0]} + multiset(rest);
      forall c ensures multiset(rest)[c] <= 1 {
        assert multiset(rest)[c] <= multiset(s)[c];
      }
      CountOfRepetitionFree(rest);
      assert s[0] !in rest by {
        assert multiset(s)[s[0]] == 1 + multiset(rest)[s[0]];
      }
      assert (set c | c in s) == {s[0]} + (set c | c in rest);
    }
  }

  class SweeperScreen {
    const store: ComplaintStore
    const uid: string
    var tasks: seq<Complaint>
    var activeComplaint: Option<string>
    var showCamera: bool
    var loading: bool

    constructor (store: ComplaintStore, uid: string)
      ensures this.store == store && this.uid == uid
      ensures tasks == [] && activeComplaint == None && !showCamera && !loading
    {
      this.store := store;
      this.uid := uid;
      tasks := [];
      activeComplaint := None;
      showCamera := false;
      loading := false;
    }

    /** A snapshot of the sweeper's subscription arrives. */
    method OnSnapshot(snapshot: seq<Complaint>)
      modifies this`tasks
      ensures tasks == Unfinished(snapshot)
    {
      tasks := Unfinished(snapshot);
    }

    /** The sweeper's subscription delivers a snapshot and the task list is
        rebuilt from it. A uid is always non-empty in practice; an empty one
        would drop the filter and list every open complaint. */
    method Refresh()
      requires store.Valid()
      modifies this`tasks
      ensures uid != "" ==> forall c :: c in tasks <==>
        c in store.complaints.Values && c.assignedSweeperId == Some(uid) && c.status != Done
      ensures uid == "" ==> forall c :: c in tasks <==> c in store.complaints.Values && c.status != Done
      ensures forall c :: multiset(tasks)[c] <= 1
      ensures uid != "" ==>
        |tasks| == |set c | c in store.complaints.Values && c.assignedSweeperId == Some(uid) && c.status != Done|
    {
      var sel, snapshot := store.Subscribe(TaskFilters(uid));
      if uid != "" {
        TaskListIsOpenAssignments(store.complaints, uid, snapshot);
      }
      OpenTasksOnce(snapshot, store.complaints, sel);
      OnSnapshot(snapshot);
      CountOfRepetitionFree(tasks);
      if uid != "" {
        assert (set c | c in tasks) ==
          (set c | c in store.complaints.Values && c.assignedSweeperId == Some(uid) && c.status != Done);
      }
    }

    /** The upload button of task `complaintId` was pressed: open the camera for it. */
    method HandleComplete(complaintId: string)
      modifies this`activeComplaint, this`showCamera
      ensures activeComplaint == Some(complaintId) && showCamera
    {
      activeComplaint := Some(complaintId);
      showCamera := true;
    }

    /** The camera was dismissed. */
    method Cancel()
      modifies this`activeComplaint, this`showCamera
      ensures activeComplaint == None && !showCamera
    {
      showCamera := false;
      activeComplaint := None;
    }

    /** A picture was captured and `upload` is the outcome of uploading it.
        Without an active task (none, or an empty id) nothing happens.
        Otherwise the record is written only after a successful upload; on
        success the camera closes and the active task is cleared, on failure
        both stay as they were; in both cases `loading` ends false. */
    method SubmitAfterPhoto(upload: Upload)
      requires store.Valid()
      modifies store, this`loading, this`activeComplaint, this`showCamera
      ensures store.Valid()
      ensures store.events == old(store.events)
      ensures !Present(old(activeComplaint)) ==>
        && store.complaints == old(store.complaints)
        && activeComplaint == old(activeComplaint) && showCamera == old(showCamera)
        && loading == old(loading)
      ensures Present(old(activeComplaint)) ==> !loading
      ensures Present(old(activeComplaint)) ==>
        var id := old(activeComplaint).value;
        var written := upload.Uploaded? && id in old(store.complaints);
        && store.complaints == (if written
             then old(store.complaints)[id := old(store.complaints)[id].(afterImage := Some(upload.url), status := Review)]
             else old(store.complaints))
        && activeComplaint == (if written then None else old(activeComplaint))
        && showCamera == (if written then false else old(showCamera))
    {
      if !Present(activeComplaint) {
        return;
      }
      loading := true;
      if upload.Uploaded? {
        var ok := store.UpdateComplaint(activeComplaint.value, AfterPhotoPatch(upload.url));
        if ok {
          showCamera := false;
          activeComplaint := None;
        }
      }
      loading := false;
    }
  }
}
