/** The participant-list computation behind joining and leaving a volunteer event. */
module Participants {

  predicate NoDuplicates(s: seq<string>) {
    forall i, j :: 0 <= i < j < |s| ==> s[i] != s[j]
  }

  /** Position of the first occurrence of `x` in `s`. */
  function FirstIndex(s: seq<string>, x: string): (k: nat)
    requires x in s
    ensures k < |s| && s[k] == x
    ensures forall i :: 0 <= i < k ==> s[i] != x
  {
    if s[0] == x then 0 else 1 + FirstIndex(s[1..], x)
  }

  /** The elements of `s` without repetitions, each at its first occurrence:
      what building a set from a list and turning it back into a list yields. */
  function Distinct(s: seq<string>): (r: seq<string>)
    ensures NoDuplicates(r)
    ensures forall x :: x in r <==> x in s
  {
    if |s| == 0 then []
    else
      var d := Distinct(s[..|s| - 1]);
      if s[|s| - 1] in d then d else d + [s[|s| - 1]]
  }

  /** Joining: the previous participants followed by `userId`, duplicates dropped. */
  function Join(participants: seq<string>, userId: string): (r: seq<string>)
    ensures userId in r
    ensures NoDuplicates(r)
    ensures forall x :: x in r <==> x in participants || x == userId
  {
    Distinct(participants + [userId])
  }

  /** Leaving: every entry other than `userId`, in the original order. */
  function Leave(participants: seq<string>, userId: string): (r: seq<string>)
    ensures userId !in r
    ensures forall x :: x in r <==> x in participants && x != userId
    ensures forall x :: x != userId ==> multiset(r)[x] == multiset(participants)[x]
  {
    if |participants| == 0 then []
    else
      assert participants == [participants[0]] + participants[1..];
      (if participants[0] == userId then [] else [participants[0]]) + Leave(participants[1..], userId)
  }

  /** The new participant list for one toggle request: `userId` is a member
      afterwards exactly when `isJoining` holds, and every other id is a member
      exactly when it was before. */
  function Toggle(participants: seq<string>, userId: string, isJoining: bool): (r: seq<string>)
    ensures userId in r <==> isJoining
    ensures forall x :: x != userId ==> (x in r <==> x in participants)
  {
    if isJoining then Join(participants, userId) else Leave(participants, userId)
  }

  // ---------------------------------------------------------------------------
  // Distinct

  /** A list without repetitions is its own set-of-elements listing. */
  lemma {:induction false} DistinctOfNoDuplicates(s: seq<string>)
    requires NoDuplicates(s)
    ensures Distinct(s) == s
  {
    if |s| > 0 {
      var init := s[..|s| - 1];
      assert NoDuplicates(init);
      DistinctOfNoDuplicates(init);
      assert s[|s| - 1] !in init;
      assert init + [s[|s| - 1]] == s;
    }
  }

  lemma FirstIndexOfPrefix(s: seq<string>, y: string, x: string)
    requires x in s
    ensures FirstIndex(s + [y], x) == FirstIndex(s, x)
  {
    var k := FirstIndex(s, x);
    var k' := FirstIndex(s + [y], x);
    assert (s + [y])[k] == x;
  }

  /** The distinct elements keep the order in which they first occur. */
  lemma {:induction false} DistinctKeepsFirstOccurrenceOrder(s: seq<string>, i: nat, j: nat)
    requires i < j < |Distinct(s)|
    ensures Distinct(s)[i] in s && Distinct(s)[j] in s
    ensures FirstIndex(s, Distinct(s)[i]) < FirstIndex(s, Distinct(s)[j])
  {
    var init := s[..|s| - 1];
    var y := s[|s| - 1];
    var d := Distinct(init);
    assert s == init + [y];
    if y in d {
      DistinctKeepsFirstOccurrenceOrder(init, i, j);
      FirstIndexOfPrefix(init, y, d[i]);
      FirstIndexOfPrefix(init, y, d[j]);
    } else {
      FirstIndexOfPrefix(init, y, d[i]);
      if j < |d| {
        DistinctKeepsFirstOccurrenceOrder(init, i, j);
        FirstIndexOfPrefix(init, y, d[j]);
      } else {
        assert Distinct(s)[j] == y && y !in init;
        assert FirstIndex(s, y) == |init|;
      }
    }
  }

  // ---------------------------------------------------------------------------
  // Join

  /** Joining keeps every earlier participant in first-occurrence order and
      appends `userId` only when it was not there. */
  lemma JoinShape(participants: seq<string>, userId: string)
    ensures Join(participants, userId) ==
      Distinct(participants) + (if userId in participants then [] else [userId])
  {
    var s := participants + [userId];
    assert s[..|s| - 1] == participants;
  }

  /** Joining as an existing member of a repetition-free list changes nothing. */
  lemma JoinExistingMember(participants: seq<string>, userId: string)
    requires NoDuplicates(participants) && userId in participants
    ensures Join(participants, userId) == participants
  {
    JoinShape(participants, userId);
    DistinctOfNoDuplicates(participants);
  }

  /** Joining as a newcomer to a repetition-free list adds exactly that one entry. */
  lemma JoinNewcomer(participants: seq<string>, userId: string)
    requires NoDuplicates(participants) && userId !in participants
    ensures Join(participants, userId) == participants + [userId]
    ensures |Join(participants, userId)| == |participants| + 1
  {
    JoinShape(participants, userId);
    DistinctOfNoDuplicates(participants);
  }

  /** Joining twice is joining once, whatever the list held before. */
  lemma JoinTwice(participants: seq<string>, userId: string)
    ensures Join(Join(participants, userId), userId) == Join(participants, userId)
  {
    JoinExistingMember(Join(participants, userId), userId);
  }

  // ---------------------------------------------------------------------------
  // Leave

  /** Leaving as a non-member changes nothing. */
  lemma {:induction false} LeaveNonMember(participants: seq<string>, userId: string)
    requires userId !in participants
    ensures Leave(participants, userId) == participants
  {
    if |participants| > 0 {
      LeaveNonMember(participants[1..], userId);
      assert participants == [participants[0]] + participants[1..];
    }
  }

  /** Leaving works entry by entry, so the remaining ids keep their relative order. */
  lemma {:induction false} LeaveConcat(a: seq<string>, b: seq<string>, userId: string)
    ensures Leave(a + b, userId) == Leave(a, userId) + Leave(b, userId)
  {
    if |a| > 0 {
      LeaveConcat(a[1..], b, userId);
      assert (a + b)[1..] == a[1..] + b;
    } else {
      assert a + b == b;
    }
  }

  /** Leaving a repetition-free list leaves a repetition-free list. */
  lemma {:induction false} LeaveNoDuplicates(participants: seq<string>, userId: string)
    requires NoDuplicates(participants)
    ensures NoDuplicates(Leave(participants, userId))
  {
    if |participants| > 0 {
      var rest := participants[1..];
      assert NoDuplicates(rest);
      LeaveNoDuplicates(rest, userId);
      assert participants[0] !in rest;
    }
  }

  // ---------------------------------------------------------------------------
  // Toggle

  /** Toggles keep a list without repetitions. */
  lemma ToggleNoDuplicates(participants: seq<string>, userId: string, isJoining: bool)
    requires NoDuplicates(participants)
    ensures NoDuplicates(Toggle(participants, userId, isJoining))
  {
    if !isJoining {
      LeaveNoDuplicates(participants, userId);
    }
  }
}
