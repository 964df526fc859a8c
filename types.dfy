/** The record shapes shared by the service layer and the three dashboards. */
module Types {

  datatype Option<+T> = None | Some(value: T) {
    function GetOr(default: T): T {
      match this
      case Some(v) => v
      case None => default
    }
  }

  /** A string-valued field is "truthy" in the dashboards' guards when it is
      present and not the empty string. */
  predicate Present(o: Option<string>) {
    o.Some? && o.value != ""
  }

  /** The role `user` is the citizen. */
  datatype Role = Citizen | Admin | Sweeper

  datatype User = User(uid: string, name: string, email: string, role: Role, createdAt: int)

  datatype Status = Submitted | Review | Done

  datatype Category = Road | River | Garbage | Public

  datatype Priority = Normal | High

  /** The non-null values of the feedback field; a missing rating is `None`. */
  datatype Rating = Poor | Avg | Good

  /** Coordinates stay abstract reals: nothing below computes with them except
      through a distance function that is passed in. */
  datatype Complaint = Complaint(
    id: string,
    userId: string,
    userName: string,
    category: Category,
    beforeImage: string,
    afterImage: Option<string>,
    latitude: real,
    longitude: real,
    status: Status,
    priority: Priority,
    assignedSweeperId: Option<string>,
    assignedSweeperName: Option<string>,
    feedback: Option<Rating>,
    description: string,
    createdAt: int)

  /** What a caller hands to complaint creation: the record without its id,
      its creation time and its status. */
  datatype ComplaintData = ComplaintData(
    userId: string,
    userName: string,
    category: Category,
    beforeImage: string,
    afterImage: Option<string>,
    latitude: real,
    longitude: real,
    priority: Priority,
    assignedSweeperId: Option<string>,
    assignedSweeperName: Option<string>,
    feedback: Option<Rating>,
    description: string)

  datatype VolunteerEvent = VolunteerEvent(
    id: string,
    title: string,
    date: int,
    latitude: real,
    longitude: real,
    description: string,
    participants: seq<string>,
    createdAt: int)

  /** What a caller hands to event creation: the event without id and creation time. */
  datatype EventData = EventData(
    title: string,
    date: int,
    latitude: real,
    longitude: real,
    description: string,
    participants: seq<string>)

  /** The outcome of an image upload (image host or object storage). */
  datatype Upload = Uploaded(url: string) | UploadFailed

  /** A partial complaint: every field that is `Some` is written, every other
      field is left alone. A nullable field is written as `Some(None)` to clear it. */
  datatype Patch = Patch(
    userId: Option<string>,
    userName: Option<string>,
    category: Option<Category>,
    beforeImage: Option<string>,
    afterImage: Option<Option<string>>,
    latitude: Option<real>,
    longitude: Option<real>,
    status: Option<Status>,
    priority: Option<Priority>,
    assignedSweeperId: Option<Option<string>>,
    assignedSweeperName: Option<Option<string>>,
    feedback: Option<Option<Rating>>,
    description: Option<string>,
    createdAt: Option<int>)

  const EmptyPatch := Patch(None, None, None, None, None, None, None, None, None, None, None, None, None, None)

  /** Field-wise merge of a partial update into a stored complaint. */
  function Merge(c: Complaint, p: Patch): Complaint {
    Complaint(
      c.id,
      p.userId.GetOr(c.userId),
      p.userName.GetOr(c.userName),
      p.category.GetOr(c.category),
      p.beforeImage.GetOr(c.beforeImage),
      p.afterImage.GetOr(c.afterImage),
      p.latitude.GetOr(c.latitude),
      p.longitude.GetOr(c.longitude),
      p.status.GetOr(c.status),
      p.priority.GetOr(c.priority),
      p.assignedSweeperId.GetOr(c.assignedSweeperId),
      p.assignedSweeperName.GetOr(c.assignedSweeperName),
      p.feedback.GetOr(c.feedback),
      p.description.GetOr(c.description),
      p.createdAt.GetOr(c.createdAt))
  }

  /** Two partial updates applied one after the other: the later one wins on
      every field both of them write. */
  function Then(p: Patch, q: Patch): Patch {
    Patch(
      if q.userId.Some? then q.userId else p.userId,
      if q.userName.Some? then q.userName else p.userName,
      if q.category.Some? then q.category else p.category,
      if q.beforeImage.Some? then q.beforeImage else p.beforeImage,
      if q.afterImage.Some? then q.afterImage else p.afterImage,
      if q.latitude.Some? then q.latitude else p.latitude,
      if q.longitude.Some? then q.longitude else p.longitude,
      if q.status.Some? then q.status else p.status,
      if q.priority.Some? then q.priority else p.priority,
      if q.assignedSweeperId.Some? then q.assignedSweeperId else p.assignedSweeperId,
      if q.assignedSweeperName.Some? then q.assignedSweeperName else p.assignedSweeperName,
      if q.feedback.Some? then q.feedback else p.feedback,
      if q.description.Some? then q.description else p.description,
      if q.createdAt.Some? then q.createdAt else p.createdAt)
  }

  /** An empty update changes nothing. */
  lemma MergeEmpty(c: Complaint)
    ensures Merge(c, EmptyPatch) == c
  {
  }

  /** Writing the same partial update twice is the same as writing it once. */
  lemma MergeIdempotent(c: Complaint, p: Patch)
    ensures Merge(Merge(c, p), p) == Merge(c, p)
  {
  }

  /** Two successive updates compose into one in which the later one wins. */
  lemma MergeThen(c: Complaint, p: Patch, q: Patch)
    ensures Merge(Merge(c, p), q) == Merge(c, Then(p, q))
  {
  }

  /** A merge never changes the record's id. */
  lemma MergeKeepsId(c: Complaint, p: Patch)
    ensures Merge(c, p).id == c.id
  {
  }
}
