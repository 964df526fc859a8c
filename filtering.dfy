/** The status filters the dashboards apply to a complaint snapshot. */
module Filtering {
  import opened Types

  /** The complaints not yet closed, in snapshot order. */
  function Unfinished(s: seq<Complaint>): (r: seq<Complaint>)
    ensures forall c :: c in r <==> c in s && c.status != Done
    ensures |r| <= |s|
  {
    if |s| == 0 then []
    else (if s[0].status != Done then [s[0]] else []) + Unfinished(s[1..])
  }

  /** The closed complaints, in snapshot order. */
  function Finished(s: seq<Complaint>): (r: seq<Complaint>)
    ensures forall c :: c in r <==> c in s && c.status == Done
    ensures |r| <= |s|
  {
    if |s| == 0 then []
    else (if s[0].status == Done then [s[0]] else []) + Finished(s[1..])
  }

  /** Every complaint is either open or closed, so the two counts add up to the total. */
  lemma {:induction false} OpenAndClosedPartition(s: seq<Complaint>)
    ensures |Unfinished(s)| + |Finished(s)| == |s|
  {
    if |s| > 0 {
      OpenAndClosedPartition(s[1..]);
    }
  }

  /** Filtering keeps each open complaint as often as the snapshot lists it. */
  lemma {:induction false} UnfinishedKeepsMultiplicity(s: seq<Complaint>, c: Complaint)
    requires c.status != Done
    ensures multiset(Unfinished(s))[c] == multiset(s)[c]
  {
    if |s| > 0 {
      UnfinishedKeepsMultiplicity(s[1..], c);
      assert s == [s[0]] + s[1..];
    }
  }

  /** Filtering is done entry by entry, so the open complaints keep their order. */
  lemma {:induction false} UnfinishedConcat(a: seq<Complaint>, b: seq<Complaint>)
    ensures Unfinished(a + b) == Unfinished(a) + Unfinished(b)
  {
    if |a| > 0 {
      var ab := a + b;
      assert ab[0] == a[0] && ab[1..] == a[1..] + b;
      var head := if a[0].status != Done then [a[0]] else [];
      assert Unfinished(ab) == head + Unfinished(ab[1..]);
      UnfinishedConcat(a[1..], b);
      assert Unfinished(a) == head + Unfinished(a[1..]);
    } else {
      assert a + b == b;
    }
  }
}
