/** The complaint lifecycle as the dashboards drive it: the actions each role
    can take on one complaint, the guards under which the screens offer them,
    and what the resulting sequences of actions can and cannot reach.

    Two sets of guards are compared. `AsWritten` is the screens as they are:
    two approve buttons require an after-photo but the one beside the assign
    drop-down does not, and a task's upload button is hidden while its status
    is `Review`. `Corrected` requires an after-photo for every approval and
    offers the upload while the task has no after-photo. */
module Lifecycle {
  import opened Types
  import opened Store
  import AdminDashboard
  import SweeperDashboard
  import CitizenDashboard
  import Location

  datatype Ui = AsWritten | Corrected

  datatype Action =
    | Assign(sweeper: User)                      // the admin picks a sweeper in the drop-down
    | ApproveWithPhoto                           // the approve button of the actions cell or the details dialog
    | ApproveBesideAssign                        // the approve button beside the drop-down
    | UploadProof(sweeperId: string, url: string) // a sweeper's proof upload that succeeded
    | GiveFeedback(rating: Rating)               // the citizen's rating

  /** A record as complaint submission creates it. */
  predicate Fresh(c: Complaint) {
    && c.status == Submitted
    && c.afterImage == None
    && c.assignedSweeperId == None
    && c.assignedSweeperName == None
    && c.feedback == None
  }

  /** The combinations of status and fields the data model allows: an
      after-photo only under review or closed, a rating only once closed, an
      assigned sweeper only once out of `Submitted`. */
  predicate Consistent(c: Complaint) {
    && (c.afterImage.Some? ==> c.status != Submitted)
    && (c.feedback.Some? ==> c.status == Done)
    && (c.assignedSweeperId.Some? ==> c.status != Submitted)
  }

  /** A sweeper sees the complaint in the task list and is offered the upload. */
  predicate UploadOfferedTo(ui: Ui, c: Complaint, sweeperId: string) {
    && sweeperId != ""
    && Matches(BySweeper(sweeperId), c)
    && c.status != Done
    && match ui
       case AsWritten => SweeperDashboard.UploadOffered(c)
       case Corrected => !Present(c.afterImage)
  }

  /** The screens offer action `a` on complaint `c`. */
  predicate Offered(ui: Ui, c: Complaint, a: Action) {
    match a
    case Assign(_) => AdminDashboard.AssignOffered(c)
    case ApproveWithPhoto => AdminDashboard.ApproveOfferedWithPhoto(c)
    case ApproveBesideAssign =>
      if ui == AsWritten then AdminDashboard.ApproveOfferedBesideAssign(c)
      else AdminDashboard.ApproveOfferedWithPhoto(c)
    case UploadProof(sweeperId, _) => UploadOfferedTo(ui, c, sweeperId)
    case GiveFeedback(_) => CitizenDashboard.FeedbackOffered(c)
  }

  /** What action `a` writes, the same partial update its handler writes. */
  function PatchOf(a: Action): Patch {
    match a
    case Assign(s) => AdminDashboard.AssignPatch(s.uid, s.name)
    case ApproveWithPhoto => AdminDashboard.ApprovePatch()
    case ApproveBesideAssign => AdminDashboard.ApprovePatch()
    case UploadProof(_, url) => SweeperDashboard.AfterPhotoPatch(url)
    case GiveFeedback(r) => CitizenDashboard.FeedbackPatch(Some(r))
  }

  /** One action: applied when offered; an action the screens do not offer
      cannot be taken and leaves the record as it is. */
  function Step(ui: Ui, c: Complaint, a: Action): Complaint {
    if Offered(ui, c, a) then Merge(c, PatchOf(a)) else c
  }

  function Run(ui: Ui, c: Complaint, trace: seq<Action>): Complaint
    decreases |trace|
  {
    if |trace| == 0 then c else Run(ui, Step(ui, c, trace[0]), trace[1..])
  }

  function Rank(s: Status): nat {
    match s
    case Submitted => 0
    case Review => 1
    case Done => 2
  }

  // ---------------------------------------------------------------------------
  // What every action writes

  /** The partial updates write exactly the fields their handlers name. */
  lemma PatchesWriteExactly(c: Complaint, s: User, url: string, r: Option<Rating>)
    ensures Merge(c, AdminDashboard.AssignPatch(s.uid, s.name)) ==
      c.(status := Review, assignedSweeperId := Some(s.uid), assignedSweeperName := Some(s.name))
    ensures Merge(c, AdminDashboard.ApprovePatch()) == c.(status := Done)
    ensures Merge(c, SweeperDashboard.AfterPhotoPatch(url)) == c.(afterImage := Some(url), status := Review)
    ensures Merge(c, CitizenDashboard.FeedbackPatch(r)) == c.(feedback := r)
  {
  }

  // ---------------------------------------------------------------------------
  // Properties of every set of guards

  /** The status never moves backwards, and the reporter, the photo of the
      issue, its place, category and priority never change. */
  lemma StepKeepsReport(ui: Ui, c: Complaint, a: Action)
    ensures Rank(Step(ui, c, a).status) >= Rank(c.status)
    ensures var c' := Step(ui, c, a);
      && c'.id == c.id && c'.userId == c.userId && c'.beforeImage == c.beforeImage
      && c'.latitude == c.latitude && c'.longitude == c.longitude
      && c'.category == c.category && c'.priority == c.priority && c'.createdAt == c.createdAt
  {
  }

  lemma {:induction false} RunKeepsReport(ui: Ui, c: Complaint, trace: seq<Action>)
    ensures Rank(Run(ui, c, trace).status) >= Rank(c.status)
    ensures var c' := Run(ui, c, trace);
      && c'.id == c.id && c'.userId == c.userId && c'.beforeImage == c.beforeImage
      && c'.latitude == c.latitude && c'.longitude == c.longitude
      && c'.category == c.category && c'.priority == c.priority && c'.createdAt == c.createdAt
    decreases |trace|
  {
    if |trace| > 0 {
      StepKeepsReport(ui, c, trace[0]);
      RunKeepsReport(ui, Step(ui, c, trace[0]), trace[1..]);
    }
  }

  /** A closed complaint stays closed. */
  lemma DoneIsFinal(ui: Ui, c: Complaint, trace: seq<Action>)
    requires c.status == Done
    ensures Run(ui, c, trace).status == Done
  {
    RunKeepsReport(ui, c, trace);
  }

  /** Once a rating is stored it is never overwritten: the rating buttons are
      offered only while there is none. */
  lemma {:induction false} FeedbackSetOnce(ui: Ui, c: Complaint, trace: seq<Action>)
    requires c.feedback.Some?
    ensures Run(ui, c, trace).feedback == c.feedback
    decreases |trace|
  {
    if |trace| > 0 {
      FeedbackSetOnce(ui, Step(ui, c, trace[0]), trace[1..]);
    }
  }

  /** Every action keeps the status and field invariants. */
  lemma StepConsistent(ui: Ui, c: Complaint, a: Action)
    requires Consistent(c)
    ensures Consistent(Step(ui, c, a))
  {
  }

  lemma {:induction false} RunConsistent(ui: Ui, c: Complaint, trace: seq<Action>)
    requires Consistent(c)
    ensures Consistent(Run(ui, c, trace))
    decreases |trace|
  {
    if |trace| > 0 {
      StepConsistent(ui, c, trace[0]);
      RunConsistent(ui, Step(ui, c, trace[0]), trace[1..]);
    }
  }

  /** A newly submitted citizen report starts the lifecycle in a fresh state,
      and from there no sequence of actions breaks the invariants. */
  lemma NewReportIsFresh(id: string, user: CitizenDashboard.AuthUser, dist: Location.Distance,
                         category: Category, description: string, url: string,
                         lat: real, lng: real, now: int, ui: Ui, trace: seq<Action>)
    ensures Fresh(NewComplaint(id, CitizenDashboard.ReportData(user, dist, category, description, url, lat, lng), now))
    ensures Consistent(Run(ui, NewComplaint(id, CitizenDashboard.ReportData(user, dist, category, description, url, lat, lng), now), trace))
  {
    var c := NewComplaint(id, CitizenDashboard.ReportData(user, dist, category, description, url, lat, lng), now);
    RunConsistent(ui, c, trace);
  }

  // ---------------------------------------------------------------------------
  // The screens as written

  /** What the screens as written can reach from a fresh record: no
      after-photo, no rating, and a sweeper assigned only outside `Submitted`. */
  predicate AsWrittenReachable(c: Complaint) {
    Consistent(c) && c.afterImage == None && c.feedback == None
  }

  lemma AsWrittenStep(c: Complaint, a: Action)
    requires AsWrittenReachable(c)
    ensures AsWrittenReachable(Step(AsWritten, c, a))
    ensures a != ApproveBesideAssign && c.status != Done ==> Step(AsWritten, c, a).status != Done
  {
  }

  /** As written, assigning a sweeper hides the upload button from every
      sweeper, the assigned one included. */
  lemma AssignHidesUpload(c: Complaint, sweeper: User, sweeperId: string)
    requires AdminDashboard.AssignOffered(c)
    ensures !SweeperDashboard.UploadOffered(Step(AsWritten, c, Assign(sweeper)))
    ensures !UploadOfferedTo(AsWritten, Step(AsWritten, c, Assign(sweeper)), sweeperId)
  {
  }

  /** As written, a complaint never receives an after-photo and is never rated:
      assignment always moves it to `Review`, and a task under review hides
      its upload button. */
  lemma {:induction false} AsWrittenNeverGetsPhoto(c: Complaint, trace: seq<Action>)
    requires Fresh(c)
    ensures Run(AsWritten, c, trace).afterImage == None
    ensures Run(AsWritten, c, trace).feedback == None
  {
    AsWrittenRun(c, trace);
  }

  lemma {:induction false} AsWrittenRun(c: Complaint, trace: seq<Action>)
    requires AsWrittenReachable(c)
    ensures AsWrittenReachable(Run(AsWritten, c, trace))
    ensures ApproveBesideAssign !in trace && c.status != Done ==> Run(AsWritten, c, trace).status != Done
    decreases |trace|
  {
    if |trace| > 0 {
      AsWrittenStep(c, trace[0]);
      assert ApproveBesideAssign !in trace ==> ApproveBesideAssign !in trace[1..];
      AsWrittenRun(Step(AsWritten, c, trace[0]), trace[1..]);
    }
  }

  /** As written, the approve buttons that demand an after-photo never fire,
      so without the button beside the drop-down nothing is ever closed:
      "closed implies an after-photo" then holds only because nothing closes. */
  lemma AsWrittenGuardedApprovalNeverCloses(c: Complaint, trace: seq<Action>)
    requires Fresh(c) && ApproveBesideAssign !in trace
    ensures Run(AsWritten, c, trace).status != Done
  {
    AsWrittenRun(c, trace);
  }

  /** As written, the approve button beside the drop-down closes an assigned
      complaint that has no after-photo. */
  lemma UnguardedApprovalClosesWithoutPhoto(c: Complaint, sweeper: User)
    requires Fresh(c)
    ensures var closed := Run(AsWritten, c, [Assign(sweeper), ApproveBesideAssign]);
      closed.status == Done && closed.afterImage == None && closed.assignedSweeperId == Some(sweeper.uid)
  {
    var t := [Assign(sweeper), ApproveBesideAssign];
    var c1 := Step(AsWritten, c, Assign(sweeper));
    assert c1 == c.(status := Review, assignedSweeperId := Some(sweeper.uid), assignedSweeperName := Some(sweeper.name));
    assert Run(AsWritten, c, t) == Run(AsWritten, c1, t[1..]);
    assert t[1..] == [ApproveBesideAssign];
    assert Run(AsWritten, c1, t[1..]) == Run(AsWritten, Step(AsWritten, c1, ApproveBesideAssign), []);
  }

  /** The before-photo of the first seeded complaint. */
  const SeedPhoto := "https://images.unsplash.com/photo-1530587191325-3db32d826c18?auto=format&fit=crop&q=80&w=800"

  /** The first seeded complaint, the one at the hospital, closed as written.
      Its creation time, an hour before start-up, is taken as 0. */
  lemma SeededHospitalComplaintClosesWithoutPhoto()
    ensures var seed := Complaint("CMP-X72A1B", "user-1", "John Doe", Garbage, SeedPhoto, None,
                                  12.9716, 77.5946, Submitted, High, None, None, None,
                                  "Massive garbage pile near the main hospital entrance.", 0);
            var sweeper := User("sweeper-1", "Rajesh Kumar", "rajesh@clean.com", Role.Sweeper, 0);
            var closed := Run(AsWritten, seed, [Assign(sweeper), ApproveBesideAssign]);
            closed.status == Done && closed.afterImage == None
  {
    var seed := Complaint("CMP-X72A1B", "user-1", "John Doe", Garbage, SeedPhoto, None,
                          12.9716, 77.5946, Submitted, High, None, None, None,
                          "Massive garbage pile near the main hospital entrance.", 0);
    UnguardedApprovalClosesWithoutPhoto(seed, User("sweeper-1", "Rajesh Kumar", "rajesh@clean.com", Role.Sweeper, 0));
  }

  // ---------------------------------------------------------------------------
  // The corrected guards

  /** With the corrected guards every closed complaint has an after-photo. */
  predicate DoneHasPhoto(c: Complaint) {
    c.status == Done ==> Present(c.afterImage)
  }

  lemma CorrectedStep(c: Complaint, a: Action)
    requires Consistent(c) && DoneHasPhoto(c)
    ensures Consistent(Step(Corrected, c, a)) && DoneHasPhoto(Step(Corrected, c, a))
  {
  }

  lemma {:induction false} CorrectedRun(c: Complaint, trace: seq<Action>)
    requires Consistent(c) && DoneHasPhoto(c)
    ensures Consistent(Run(Corrected, c, trace)) && DoneHasPhoto(Run(Corrected, c, trace))
    decreases |trace|
  {
    if |trace| > 0 {
      CorrectedStep(c, trace[0]);
      CorrectedRun(Step(Corrected, c, trace[0]), trace[1..]);
    }
  }

  /** With the corrected guards, no sequence of actions closes a complaint
      without an after-photo. */
  lemma CorrectedDoneHasPhoto(c: Complaint, trace: seq<Action>)
    requires Fresh(c)
    ensures Run(Corrected, c, trace).status == Done ==> Present(Run(Corrected, c, trace).afterImage)
  {
    CorrectedRun(c, trace);
  }

  /** With the corrected guards, approving a complaint that has no after-photo
      is refused and leaves the record unchanged. */
  lemma CorrectedApprovalNeedsPhoto(c: Complaint, a: Action)
    requires a == ApproveWithPhoto || a == ApproveBesideAssign
    requires !Present(c.afterImage)
    ensures Step(Corrected, c, a) == c
  {
  }

  /** With the corrected guards the whole lifecycle can be completed: assign,
      upload proof, approve, rate. */
  lemma CorrectedHappyPath(c: Complaint, sweeper: User, url: string, rating: Rating)
    requires Fresh(c) && sweeper.uid != "" && url != ""
    ensures var t := [Assign(sweeper), UploadProof(sweeper.uid, url), ApproveWithPhoto, GiveFeedback(rating)];
      var end := Run(Corrected, c, t);
      && end.status == Done && end.afterImage == Some(url)
      && end.assignedSweeperId == Some(sweeper.uid) && end.feedback == Some(rating)
  {
    var c1 := Step(Corrected, c, Assign(sweeper));
    var c2 := Step(Corrected, c1, UploadProof(sweeper.uid, url));
    var c3 := Step(Corrected, c2, ApproveWithPhoto);
    var c4 := Step(Corrected, c3, GiveFeedback(rating));
    assert c1 == c.(status := Review, assignedSweeperId := Some(sweeper.uid), assignedSweeperName := Some(sweeper.name));
    assert c2 == c1.(afterImage := Some(url), status := Review);
    assert c3 == c2.(status := Done);
    assert c4 == c3.(feedback := Some(rating));
    var t := [Assign(sweeper), UploadProof(sweeper.uid, url), ApproveWithPhoto, GiveFeedback(rating)];
    assert Run(Corrected, c, t) == Run(Corrected, c1, t[1..]);
    assert t[1..][1..] == [ApproveWithPhoto, GiveFeedback(rating)];
    assert Run(Corrected, c1, t[1..]) == Run(Corrected, c2, t[2..]);
    assert Run(Corrected, c2, t[2..]) == Run(Corrected, c3, t[3..]);
    assert Run(Corrected, c3, t[3..]) == Run(Corrected, c4, []);
  }
}
