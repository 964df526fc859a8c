/** The document store as the service layer uses it: a collection of complaints
    and a collection of volunteer events, each keyed by document id. */
module Store {
  import opened Types
  import opened Participants

  /** The optional filters a dashboard passes to its complaint subscription. */
  datatype Filters = Filters(userId: Option<string>, assignedSweeperId: Option<string>)

  /** The query a subscription finally runs. */
  datatype Selection = All | ByUser(userId: string) | BySweeper(sweeperId: string)

  predicate Matches(sel: Selection, c: Complaint) {
    match sel
    case All => true
    case ByUser(u) => c.userId == u
    case BySweeper(s) => c.assignedSweeperId == Some(s)
  }

  predicate NewestFirst(r: seq<Complaint>) {
    forall i, j :: 0 <= i < j < |r| ==> r[i].createdAt >= r[j].createdAt
  }

  /** `r` is a correct snapshot of the query `sel` over `complaints`: it lists
      each matching record once, nothing else, newest first. The order among
      records created at the same instant is left to the store. */
  ghost predicate IsSnapshot(complaints: map<string, Complaint>, sel: Selection, r: seq<Complaint>) {
    && (forall c :: c in r <==> c in complaints.Values && Matches(sel, c))
    && (forall c :: multiset(r)[c] <= 1)
    && NewestFirst(r)
  }

  /** Puts `c` into a list in front of the first record older than it. */
  function InsertByNewest(r: seq<Complaint>, c: Complaint): (r': seq<Complaint>)
    ensures multiset(r') == multiset(r) + multiset{c}
  {
    if |r| == 0 then [c]
    else if c.createdAt >= r[0].createdAt then [c] + r
    else
      assert r == [r[0]] + r[1..];
      [r[0]] + InsertByNewest(r[1..], c)
  }

  /** Inserting into a newest-first list keeps it newest first. */
  lemma {:induction false} InsertKeepsNewestFirst(r: seq<Complaint>, c: Complaint)
    requires NewestFirst(r)
    ensures NewestFirst(InsertByNewest(r, c))
  {
    if |r| > 0 && c.createdAt < r[0].createdAt {
      var rest := InsertByNewest(r[1..], c);
      InsertKeepsNewestFirst(r[1..], c);
      forall x | x in rest ensures r[0].createdAt >= x.createdAt {
        assert x in multiset(rest);
        assert x in r[1..] || x == c;
      }
      assert InsertByNewest(r, c) == [r[0]] + rest;
    }
  }

  /** Inserting a record that is not yet listed keeps every record listed at
      most once and keeps the list newest first. */
  lemma InsertFresh(r: seq<Complaint>, c: Complaint)
    requires c !in r
    requires forall x :: multiset(r)[x] <= 1
    requires NewestFirst(r)
    ensures forall x :: x in InsertByNewest(r, c) <==> x in r || x == c
    ensures forall x :: multiset(InsertByNewest(r, c))[x] <= 1
    ensures NewestFirst(InsertByNewest(r, c))
  {
    InsertKeepsNewestFirst(r, c);
    var r' := InsertByNewest(r, c);
    forall x ensures x in r' <==> x in r || x == c {
      assert x in r' <==> x in multiset(r');
      assert x in r <==> x in multiset(r);
    }
  }

  /** The stored record for a newly created complaint: the caller's data with
      the given id and time, and status `Submitted` whatever the caller wanted. */
  function NewComplaint(id: string, data: ComplaintData, now: int): (c: Complaint)
    ensures c.id == id && c.status == Submitted && c.createdAt == now
  {
    Complaint(id, data.userId, data.userName, data.category, data.beforeImage, data.afterImage,
              data.latitude, data.longitude, Submitted, data.priority, data.assignedSweeperId,
              data.assignedSweeperName, data.feedback, data.description, now)
  }

  /** The caller-supplied part of a stored complaint. */
  function DataOf(c: Complaint): ComplaintData {
    ComplaintData(c.userId, c.userName, c.category, c.beforeImage, c.afterImage,
                  c.latitude, c.longitude, c.priority, c.assignedSweeperId,
                  c.assignedSweeperName, c.feedback, c.description)
  }

  /** Creation stores every field the caller supplied, unchanged. */
  lemma NewComplaintKeepsData(id: string, data: ComplaintData, now: int)
    ensures DataOf(NewComplaint(id, data, now)) == data
  {
  }

  /** The stored record for a newly created event: the caller's data with the
      given id and time. */
  function NewEvent(id: string, data: EventData, now: int): (e: VolunteerEvent)
    ensures e.id == id && e.createdAt == now && e.participants == data.participants
  {
    VolunteerEvent(id, data.title, data.date, data.latitude, data.longitude,
                   data.description, data.participants, now)
  }

  /** The caller-supplied part of a stored event. */
  function EventDataOf(e: VolunteerEvent): EventData {
    EventData(e.title, e.date, e.latitude, e.longitude, e.description, e.participants)
  }

  /** Event creation stores every field the caller supplied, unchanged. */
  lemma NewEventKeepsData(id: string, data: EventData, now: int)
    ensures EventDataOf(NewEvent(id, data, now)) == data
  {
  }

  /** Picks the query for a subscription: the complaint list ordered by
      creation time, narrowed to a user when a user id is given, and narrowed
      to a sweeper instead when a sweeper id is given. Empty ids count as absent. */
  method ChooseSelection(f: Filters) returns (sel: Selection)
    ensures Present(f.assignedSweeperId) ==> sel == BySweeper(f.assignedSweeperId.value)
    ensures !Present(f.assignedSweeperId) && Present(f.userId) ==> sel == ByUser(f.userId.value)
    ensures !Present(f.assignedSweeperId) && !Present(f.userId) ==> sel == All
  {
    sel := All;
    if Present(f.userId) {
      sel := ByUser(f.userId.value);
    }
    if Present(f.assignedSweeperId) {
      sel := BySweeper(f.assignedSweeperId.value);
    }
  }

  class ComplaintStore {
    var complaints: map<string, Complaint>
    var events: map<string, VolunteerEvent>

    /** Every document carries the id it is stored under. */
    ghost predicate Valid()
      reads this
    {
      && (forall k :: k in complaints ==> complaints[k].id == k)
      && (forall k :: k in events ==> events[k].id == k)
    }

    constructor ()
      ensures Valid() && complaints == map[] && events == map[]
    {
      complaints := map[];
      events := map[];
    }

    /** Adds a complaint under the store-chosen id `autoId` and returns that id. */
    method CreateComplaint(data: ComplaintData, autoId: string, now: int) returns (id: string)
      requires Valid() && autoId !in complaints
      modifies this
      ensures Valid()
      ensures id == autoId
      ensures complaints == old(complaints)[id := NewComplaint(id, data, now)]
      ensures events == old(events)
    {
      id := autoId;
      complaints := complaints[id := NewComplaint(id, data, now)];
    }

    /** Writes the fields present in `updates` into complaint `id`. The write
        fails, changing nothing, when there is no such complaint. */
    method UpdateComplaint(id: string, updates: Patch) returns (ok: bool)
      requires Valid()
      modifies this
      ensures Valid()
      ensures ok == (id in old(complaints))
      ensures complaints == if ok then old(complaints)[id := Merge(old(complaints)[id], updates)]
                            else old(complaints)
      ensures events == old(events)
    {
      ok := id in complaints;
      if ok {
        complaints := complaints[id := Merge(complaints[id], updates)];
      }
    }

    /** Adds an event under the store-chosen id `autoId` and returns that id. */
    method CreateEvent(data: EventData, autoId: string, now: int) returns (id: string)
      requires Valid() && autoId !in events
      modifies this
      ensures Valid()
      ensures id == autoId
      ensures events == old(events)[id := NewEvent(id, data, now)]
      ensures complaints == old(complaints)
    {
      id := autoId;
      events := events[id := NewEvent(id, data, now)];
    }

    /** Joins or leaves an event. Nothing is written when the event does not exist. */
    method ToggleEventJoin(eventId: string, userId: string, isJoining: bool) returns (written: bool)
      requires Valid()
      modifies this
      ensures Valid()
      ensures written == (eventId in old(events))
      ensures events == if written
        then old(events)[eventId := old(events)[eventId].(participants :=
               Toggle(old(events)[eventId].participants, userId, isJoining))]
        else old(events)
      ensures complaints == old(complaints)
    {
      written := eventId in events;
      if !written {
        return;
      }
      var participants := events[eventId].participants;
      var updated := Toggle(participants, userId, isJoining);
      events := events[eventId := events[eventId].(participants := updated)];
    }

    /** Runs the query `sel` once: the records it selects, newest first. */
    method Query(sel: Selection) returns (r: seq<Complaint>)
      requires Valid()
      ensures IsSnapshot(complaints, sel, r)
    {
      var m := complaints;
      r := [];
      var pending := m.Keys;
      while pending != {}
        invariant pending <= m.Keys
        invariant forall c :: c in r ==> c.id in m && m[c.id] == c && c.id !in pending && Matches(sel, c)
        invariant forall k :: k in m && k !in pending && Matches(sel, m[k]) ==> m[k] in r
        invariant forall c :: multiset(r)[c] <= 1
        invariant NewestFirst(r)
        decreases pending
      {
        var k :| k in pending;
        var c := m[k];
        if Matches(sel, c) {
          InsertFresh(r, c);
          r := InsertByNewest(r, c);
        }
        pending := pending - {k};
      }
    }

    /** One snapshot of a complaint subscription with the given filters:
        the query it chooses and what that query delivers. */
    method Subscribe(f: Filters) returns (sel: Selection, r: seq<Complaint>)
      requires Valid()
      ensures Present(f.assignedSweeperId) ==> sel == BySweeper(f.assignedSweeperId.value)
      ensures !Present(f.assignedSweeperId) && Present(f.userId) ==> sel == ByUser(f.userId.value)
      ensures !Present(f.assignedSweeperId) && !Present(f.userId) ==> sel == All
      ensures IsSnapshot(complaints, sel, r)
    {
      sel := ChooseSelection(f);
      r := Query(sel);
    }
  }
}
