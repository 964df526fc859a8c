/** The admin console: the ordered complaint list, its statistics, and the
    two actions an administrator takes on a complaint. */
module AdminDashboard {
  import opened Types
  import opened Store
  import opened Filtering

  // ---------------------------------------------------------------------------
  // List ordering

  /** The list comparator: negative when `a` goes first, positive when `b`
      does, zero when neither does. A high-priority record goes before any
      other; within a tier the newer one goes first. */
  function Compare(a: Complaint, b: Complaint): (r: int)
    ensures r < 0 <==>
      (a.priority == High && b.priority != High) ||
      ((a.priority == High) == (b.priority == High) && a.createdAt > b.createdAt)
    ensures r > 0 <==>
      (a.priority != High && b.priority == High) ||
      ((a.priority == High) == (b.priority == High) && a.createdAt < b.createdAt)
  {
    if a.priority == High && b.priority != High then -1
    else if a.priority != High && b.priority == High then 1
    else b.createdAt - a.createdAt
  }

  /** `a` may be listed before `b`: `b` is not high priority unless `a` is,
      and within a tier `a` is not older. */
  predicate Precedes(a: Complaint, b: Complaint)
    ensures Precedes(a, b) <==>
      (b.priority == High ==> a.priority == High) &&
      ((a.priority == High) == (b.priority == High) ==> a.createdAt >= b.createdAt)
  {
    Compare(a, b) <= 0
  }

  predicate Ordered(s: seq<Complaint>) {
    forall i, j :: 0 <= i < j < |s| ==> Precedes(s[i], s[j])
  }

  /** Swapping the arguments flips the comparator's sign. */
  lemma CompareAntisymmetric(a: Complaint, b: Complaint)
    ensures Compare(b, a) == -Compare(a, b)
  {
  }

  /** The comparator is a total preorder: any two records are comparable, and
      the order is transitive. Sorting with it is therefore well defined. */
  lemma PrecedesTotalPreorder(a: Complaint, b: Complaint, c: Complaint)
    ensures Precedes(a, b) || Precedes(b, a)
    ensures Precedes(a, b) && Precedes(b, c) ==> Precedes(a, c)
  {
  }

  /** Inserts `x` in front of the first record it may precede. */
  function Insert(x: Complaint, s: seq<Complaint>): (r: seq<Complaint>)
    ensures multiset(r) == multiset(s) + multiset{x}
  {
    if |s| == 0 then [x]
    else if Precedes(x, s[0]) then [x] + s
    else
      assert s == [s[0]] + s[1..];
      [s[0]] + Insert(x, s[1..])
  }

  lemma {:induction false} InsertKeepsOrdered(x: Complaint, s: seq<Complaint>)
    requires Ordered(s)
    ensures Ordered(Insert(x, s))
  {
    if |s| > 0 && !Precedes(x, s[0]) {
      var rest := Insert(x, s[1..]);
      InsertKeepsOrdered(x, s[1..]);
      forall y | y in rest ensures Precedes(s[0], y) {
        assert y in multiset(rest);
        if y != x {
          assert y in s[1..];
          var k :| 0 <= k < |s[1..]| && s[1..][k] == y;
          assert s[k + 1] == y;
        }
      }
      assert Insert(x, s) == [s[0]] + rest;
    }
  }

  /** The admin list: the snapshot sorted with the comparator. */
  function AdminOrder(s: seq<Complaint>): (r: seq<Complaint>)
    ensures multiset(r) == multiset(s)
    ensures Ordered(r)
  {
    if |s| == 0 then []
    else
      assert s == [s[0]] + s[1..];
      InsertKeepsOrdered(s[0], AdminOrder(s[1..]));
      Insert(s[0], AdminOrder(s[1..]))
  }

  /** In the admin list every high-priority complaint comes before every other one,
      and within a priority tier newer complaints come first. */
  lemma AdminOrderTiers(s: seq<Complaint>, i: nat, j: nat)
    requires i < j < |AdminOrder(s)|
    ensures AdminOrder(s)[j].priority == High ==> AdminOrder(s)[i].priority == High
    ensures (AdminOrder(s)[i].priority == High) == (AdminOrder(s)[j].priority == High) ==>
      AdminOrder(s)[i].createdAt >= AdminOrder(s)[j].createdAt
  {
    assert Precedes(AdminOrder(s)[i], AdminOrder(s)[j]);
  }

  // ---------------------------------------------------------------------------
  // Statistics

  datatype Stats = Stats(total: nat, pending: nat, completed: nat)

  /** The three counters shown above the list. */
  function StatsOf(s: seq<Complaint>): (r: Stats)
    ensures r.total == |s|
    ensures r.pending + r.completed == r.total
    ensures r.pending == |Unfinished(s)| && r.completed == |Finished(s)|
  {
    OpenAndClosedPartition(s);
    Stats(|s|, |Unfinished(s)|, |Finished(s)|)
  }

  // ---------------------------------------------------------------------------
  // Actions and the guards that offer them

  /** Position `i` holds the first sweeper with the given uid. */
  predicate FirstWithUid(sweepers: seq<User>, i: int, uid: string) {
    0 <= i < |sweepers| && sweepers[i].uid == uid && forall k :: 0 <= k < i ==> sweepers[k].uid != uid
  }

  /** The first sweeper in the list with the given uid. */
  function FindSweeper(sweepers: seq<User>, uid: string): (r: Option<User>)
    ensures r.None? <==> forall s :: s in sweepers ==> s.uid != uid
    ensures r.Some? ==> exists i :: FirstWithUid(sweepers, i, uid) && sweepers[i] == r.value
  {
    if |sweepers| == 0 then None
    else if sweepers[0].uid == uid then
      assert FirstWithUid(sweepers, 0, uid);
      Some(sweepers[0])
    else
      var r := FindSweeper(sweepers[1..], uid);
      assert r.Some? ==> exists i :: FirstWithUid(sweepers, i, uid) && sweepers[i] == r.value by {
        if r.Some? {
          var i :| FirstWithUid(sweepers[1..], i, uid) && sweepers[1..][i] == r.value;
          assert FirstWithUid(sweepers, i + 1, uid) by {
            forall k | 0 <= k < i + 1 ensures sweepers[k].uid != uid {
              if k > 0 { assert sweepers[k] == sweepers[1..][k - 1]; }
            }
          }
        }
      }
      assert r.None? <==> forall s :: s in sweepers ==> s.uid != uid by {
        assert forall s :: s in sweepers <==> s == sweepers[0] || s in sweepers[1..];
      }
      r
  }

  /** What assigning a sweeper writes. */
  function AssignPatch(sweeperId: string, sweeperName: string): Patch {
    EmptyPatch.(status := Some(Review), assignedSweeperId := Some(Some(sweeperId)),
                assignedSweeperName := Some(Some(sweeperName)))
  }

  /** What approving a resolution writes. */
  function ApprovePatch(): Patch {
    EmptyPatch.(status := Some(Done))
  }

  /** The assign drop-down is shown for submitted complaints only. */
  predicate AssignOffered(c: Complaint) {
    c.status == Submitted
  }

  /** The approve button in the actions cell of a row, and the one in the
      details dialog: under review and with an after-photo. */
  predicate ApproveOfferedWithPhoto(c: Complaint) {
    c.status == Review && Present(c.afterImage)
  }

  /** The approve button beside the assign drop-down: under review, whatever
      the after-photo. */
  predicate ApproveOfferedBesideAssign(c: Complaint) {
    c.status == Review
  }

  /** The two approve guards differ exactly on a complaint under review
      without an after-photo, and no guard offers both assign and approve. */
  lemma ApproveGuardsDiffer(c: Complaint)
    ensures ApproveOfferedWithPhoto(c) ==> ApproveOfferedBesideAssign(c)
    ensures ApproveOfferedBesideAssign(c) && !ApproveOfferedWithPhoto(c) <==>
      c.status == Review && !Present(c.afterImage)
    ensures !(AssignOffered(c) && ApproveOfferedBesideAssign(c))
  {
  }

  class AdminConsole {
    const store: ComplaintStore
    var sweepers: seq<User>
    var complaints: seq<Complaint>
    var stats: Stats
    var selected: Option<Complaint>

    constructor (store: ComplaintStore, sweepers: seq<User>)
      ensures this.store == store && this.sweepers == sweepers
      ensures complaints == [] && stats == Stats(0, 0, 0) && selected == None
    {
      this.store := store;
      this.sweepers := sweepers;
      complaints := [];
      stats := Stats(0, 0, 0);
      selected := None;
    }

    /** A snapshot of all complaints arrives: the list is re-sorted and the
        counters recomputed from it. */
    method OnSnapshot(all: seq<Complaint>)
      modifies this`complaints, this`stats
      ensures complaints == AdminOrder(all)
      ensures stats == StatsOf(all)
    {
      complaints := AdminOrder(all);
      stats := StatsOf(all);
    }

    /** Assigns complaint `complaintId` to sweeper `sweeperId`. Nothing is
        written when the uid is not a known sweeper or the complaint does not exist. */
    method AssignTask(complaintId: string, sweeperId: string)
      requires store.Valid()
      modifies store
      ensures store.Valid()
      ensures store.events == old(store.events)
      ensures store.complaints ==
        if FindSweeper(sweepers, sweeperId).Some? && complaintId in old(store.complaints)
        then old(store.complaints)[complaintId := old(store.complaints)[complaintId].(
               status := Review,
               assignedSweeperId := Some(sweeperId),
               assignedSweeperName := Some(FindSweeper(sweepers, sweeperId).value.name))]
        else old(store.complaints)
    {
      var sweeper := FindSweeper(sweepers, sweeperId);
      if sweeper.None? {
        return;
      }
      var _ := store.UpdateComplaint(complaintId, AssignPatch(sweeperId, sweeper.value.name));
    }

    /** Closes complaint `complaintId`. Only the status is written; the store
        write is not conditioned on the after-photo. The details dialog is
        closed once the write has gone through. */
    method ApproveResolution(complaintId: string)
      requires store.Valid()
      modifies store, this`selected
      ensures store.Valid()
      ensures store.events == old(store.events)
      ensures store.complaints ==
        if complaintId in old(store.complaints)
        then old(store.complaints)[complaintId := old(store.complaints)[complaintId].(status := Done)]
        else old(store.complaints)
      ensures selected == if complaintId in old(store.complaints) then None else old(selected)
    {
      var ok := store.UpdateComplaint(complaintId, ApprovePatch());
      if ok {
        selected := None;
      }
    }
  }
}
