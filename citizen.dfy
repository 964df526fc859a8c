/** The citizen's screen: reporting an issue, rating a closed complaint, and
    joining or leaving clean-up events. */
module CitizenDashboard {
  import opened Types
  import opened Store
  import opened Location
  import opened Participants

  /** The signed-in account as the identity provider reports it. */
  datatype AuthUser = AuthUser(uid: string, displayName: Option<string>)

  /** A geolocation fix. */
  datatype Position = Position(lat: real, lng: real)

  /** The record a citizen's report is created from. */
  function ReportData(user: AuthUser, dist: Distance, category: Category, description: string,
                      imageUrl: string, lat: real, lng: real): (d: ComplaintData)
    ensures d.userId == user.uid && d.beforeImage == imageUrl
    ensures d.userName == if Present(user.displayName) then user.displayName.value else "Citizen"
    ensures d.afterImage == None && d.feedback == None
    ensures d.assignedSweeperId == None && d.assignedSweeperName == None
    ensures d.priority == High <==> CheckPriority(dist, lat, lng)
    ensures d.latitude == lat && d.longitude == lng
    ensures d.category == category && d.description == description
  {
    ComplaintData(
      user.uid,
      if Present(user.displayName) then user.displayName.value else "Citizen",
      category, imageUrl, None, lat, lng,
      if CheckPriority(dist, lat, lng) then High else Normal,
      None, None, None, description)
  }

  /** What rating a complaint writes. */
  function FeedbackPatch(rating: Option<Rating>): Patch {
    EmptyPatch.(feedback := Some(rating))
  }

  /** The rating buttons appear for a closed complaint with an after-photo
      that has not been rated yet. */
  predicate FeedbackOffered(c: Complaint) {
    c.status == Done && Present(c.afterImage) && c.feedback.None?
  }

  /** Whether the event button shows "joined" for the given account. */
  predicate Joined(e: VolunteerEvent, user: Option<AuthUser>) {
    (if user.Some? then user.value.uid else "") in e.participants
  }

  class CitizenScreen {
    const store: ComplaintStore
    const currentUser: Option<AuthUser>
    var showCamera: bool
    var loading: bool
    var category: Category
    var description: string

    constructor (store: ComplaintStore, currentUser: Option<AuthUser>)
      ensures this.store == store && this.currentUser == currentUser
      ensures !showCamera && !loading && category == Garbage && description == ""
    {
      this.store := store;
      this.currentUser := currentUser;
      showCamera := false;
      loading := false;
      category := Garbage;
      description := "";
    }

    /** The report button was pressed. `position` is the outcome of the
        location check: the camera opens only when a fix was obtained. */
    method NewReport(position: Option<Position>)
      modifies this`showCamera
      ensures showCamera == (position.Some? || old(showCamera))
    {
      if position.Some? {
        showCamera := true;
      }
    }

    /** A picture was captured. `position` is the geolocation fix (`None` when
        it is refused or times out) and `upload` the outcome of uploading the
        picture, attempted only after a fix. A complaint is created only when
        both succeed, under the store-chosen id `autoId` at time `now`; then
        the camera closes and the description is cleared. Without a signed-in
        user nothing happens. */
    method SubmitReport(dist: Distance, position: Option<Position>, upload: Upload, autoId: string, now: int)
      requires store.Valid() && autoId !in store.complaints
      modifies store, this`loading, this`showCamera, this`description
      ensures store.Valid()
      ensures store.events == old(store.events)
      ensures currentUser.None? ==>
        store.complaints == old(store.complaints) && loading == old(loading) &&
        showCamera == old(showCamera) && description == old(description)
      ensures currentUser.Some? ==> !loading
      ensures currentUser.Some? ==>
        var created := position.Some? && upload.Uploaded?;
        && store.complaints == (if created
             then old(store.complaints)[autoId := NewComplaint(autoId,
                    ReportData(currentUser.value, dist, category, old(description), upload.url,
                               position.value.lat, position.value.lng), now)]
             else old(store.complaints))
        && showCamera == (if created then false else old(showCamera))
        && description == (if created then "" else old(description))
    {
      if currentUser.None? {
        return;
      }
      loading := true;
      if position.Some? && upload.Uploaded? {
        var data := ReportData(currentUser.value, dist, category, description, upload.url,
                               position.value.lat, position.value.lng);
        var _ := store.CreateComplaint(data, autoId, now);
        showCamera := false;
        description := "";
      }
      loading := false;
    }

    /** The camera was dismissed without a picture. */
    method CloseCamera()
      modifies this`showCamera
      ensures !showCamera
    {
      showCamera := false;
    }

    /** Rates complaint `complaintId`; only the feedback field is written. */
    method HandleFeedback(complaintId: string, rating: Option<Rating>)
      requires store.Valid()
      modifies store
      ensures store.Valid()
      ensures store.events == old(store.events)
      ensures store.complaints ==
        if complaintId in old(store.complaints)
        then old(store.complaints)[complaintId := old(store.complaints)[complaintId].(feedback := rating)]
        else old(store.complaints)
    {
      var _ := store.UpdateComplaint(complaintId, FeedbackPatch(rating));
    }

    /** Joins (`isJoining`) or leaves an event; nothing without a signed-in user. */
    method ToggleJoinEvent(eventId: string, isJoining: bool)
      requires store.Valid()
      modifies store
      ensures store.Valid()
      ensures store.complaints == old(store.complaints)
      ensures store.events ==
        if currentUser.Some? && eventId in old(store.events)
        then old(store.events)[eventId := old(store.events)[eventId].(participants :=
               Toggle(old(store.events)[eventId].participants, currentUser.value.uid, isJoining))]
        else old(store.events)
    {
      if currentUser.None? {
        return;
      }
      var _ := store.ToggleEventJoin(eventId, currentUser.value.uid, isJoining);
    }

    /** The event button of `shown`, the event as the last snapshot showed it,
        was pressed: a member leaves, anyone else joins. When the snapshot is
        current, one press flips the user's membership and nobody else's. */
    method PressEventButton(shown: VolunteerEvent)
      requires store.Valid()
      modifies store
      ensures store.Valid()
      ensures store.complaints == old(store.complaints)
      ensures store.events ==
        if currentUser.Some? && shown.id in old(store.events)
        then old(store.events)[shown.id := old(store.events)[shown.id].(participants :=
               Toggle(old(store.events)[shown.id].participants, currentUser.value.uid, !Joined(shown, currentUser)))]
        else old(store.events)
      ensures currentUser.Some? && shown.id in old(store.events) && old(store.events)[shown.id] == shown ==>
        && shown.id in store.events
        && (currentUser.value.uid in store.events[shown.id].participants <==>
            currentUser.value.uid !in shown.participants)
        && (forall x :: x != currentUser.value.uid ==>
             (x in store.events[shown.id].participants <==> x in shown.participants))
    {
      var joined := Joined(shown, currentUser);
      ToggleJoinEvent(shown.id, !joined);
    }
  }
}
