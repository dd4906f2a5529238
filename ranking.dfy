/** The completion rank of one (member, day, part) event (`getCompletionRank`). */
module Ranking {
  import opened Snapshot
  import opened Counting

  /** Member `c` is not the subject `id` and finished that day's part strictly before `target`. */
  predicate Beats(c: Member, id: int, dayIdx: DayIndex, partNum: int, target: int) {
    c.id != id &&
    match PartOf(c.days[dayIdx], partNum)
    case None => false
    case Some(part) => part.gotStarAt < target
  }

  function BeatsAt(id: int, dayIdx: DayIndex, partNum: int, target: int): Member -> bool {
    c => Beats(c, id, dayIdx, partNum, target)
  }

  /** The subject's own timestamp for that day and part. */
  function TargetTime(subject: Member, dayIdx: DayIndex, partNum: int): int
    requires PartOf(subject.days[dayIdx], partNum).Some?
  {
    PartOf(subject.days[dayIdx], partNum).value.gotStarAt
  }

  /** How many members of `members` other than `id` finished that day's part strictly before `target`. */
  function Ahead(members: seq<Member>, id: int, dayIdx: DayIndex, partNum: int, target: int): nat {
    Count(members, BeatsAt(id, dayIdx, partNum, target))
  }

  /** How many other members of `members` finished the subject's day and part strictly earlier. */
  function NumAhead(members: seq<Member>, subject: Member, dayIdx: DayIndex, partNum: int): nat
    requires PartOf(subject.days[dayIdx], partNum).Some?
  {
    Ahead(members, subject.id, dayIdx, partNum, TargetTime(subject, dayIdx, partNum))
  }

  /**
   * `getCompletionRank`. The source reads the subject's Part 1 timestamp before
   * choosing the part, so it dereferences Part 1 even for a Part 2 query: both
   * records must exist. The loop skips the subject and members without the
   * record, and counts strictly earlier timestamps only.
   */
  method GetCompletionRank(leaderboard: Board, inMember: Member, dayIdx: DayIndex, partNum: int)
    returns (numAhead: nat)
    requires inMember.days[dayIdx].part1.Some? && PartOf(inMember.days[dayIdx], partNum).Some?
    ensures numAhead == NumAhead(leaderboard.members, inMember, dayIdx, partNum)
  {
    var targetTime := inMember.days[dayIdx].part1.value.gotStarAt;
    if partNum != 1 {
      targetTime := inMember.days[dayIdx].part2.value.gotStarAt;
    }
    ghost var beats := BeatsAt(inMember.id, dayIdx, partNum, targetTime);
    var members := leaderboard.members;
    numAhead := 0;
    for i := 0 to |members|
      invariant numAhead == Count(members[..i], beats)
    {
      assert members[..i + 1][..i] == members[..i];
      var member := members[i];
      if member.id == inMember.id {
        continue;
      }
      var part := member.days[dayIdx].part1;
      if partNum != 1 {
        part := member.days[dayIdx].part2;
      }
      if part.None? {
        continue;
      }
      if part.value.gotStarAt < targetTime {
        numAhead := numAhead + 1;
      }
    }
    assert members[..|members|] == members;
  }

  /**
   * The subject never counts itself, so when it is on the board the displayed
   * rank `numAhead + 1` lies between 1 and the number of members.
   */
  lemma RankBounds(members: seq<Member>, k: nat, dayIdx: DayIndex, partNum: int)
    requires k < |members| && PartOf(members[k].days[dayIdx], partNum).Some?
    ensures 1 <= NumAhead(members, members[k], dayIdx, partNum) + 1 <= |members|
  {
    var s := members[k];
    CountMissing(members, k, BeatsAt(s.id, dayIdx, partNum, TargetTime(s, dayIdx, partNum)));
  }

  /** The rank depends only on which members are on the board, not on their order. */
  lemma RankPermutation(members: seq<Member>, shuffled: seq<Member>, subject: Member, dayIdx: DayIndex, partNum: int)
    requires multiset(members) == multiset(shuffled)
    requires PartOf(subject.days[dayIdx], partNum).Some?
    ensures NumAhead(members, subject, dayIdx, partNum) == NumAhead(shuffled, subject, dayIdx, partNum)
  {
    CountPermutation(members, shuffled,
                     BeatsAt(subject.id, dayIdx, partNum, TargetTime(subject, dayIdx, partNum)));
  }

  /**
   * On a board with unique IDs, a member who finished strictly earlier than
   * another gets a strictly better (smaller) rank.
   */
  lemma RankOrdersByTime(members: seq<Member>, a: nat, b: nat, dayIdx: DayIndex, partNum: int)
    requires UniqueIds(members) && a < |members| && b < |members|
    requires PartOf(members[a].days[dayIdx], partNum).Some?
    requires PartOf(members[b].days[dayIdx], partNum).Some?
    requires TargetTime(members[a], dayIdx, partNum) < TargetTime(members[b], dayIdx, partNum)
    ensures NumAhead(members, members[a], dayIdx, partNum) < NumAhead(members, members[b], dayIdx, partNum)
  {
    var ta := TargetTime(members[a], dayIdx, partNum);
    var tb := TargetTime(members[b], dayIdx, partNum);
    var p := BeatsAt(members[a].id, dayIdx, partNum, ta);
    var q := BeatsAt(members[b].id, dayIdx, partNum, tb);
    forall i | 0 <= i < |members| && p(members[i])
      ensures q(members[i])
    {
      assert i != b ==> members[i].id != members[b].id;
    }
    assert a != b;
    assert q(members[a]) && !p(members[a]);
    CountMonotone(members, p, q);
  }

  /** On a board with unique IDs, members who finished at the same second share a rank. */
  lemma RankTies(members: seq<Member>, a: nat, b: nat, dayIdx: DayIndex, partNum: int)
    requires UniqueIds(members) && a < |members| && b < |members|
    requires PartOf(members[a].days[dayIdx], partNum).Some?
    requires PartOf(members[b].days[dayIdx], partNum).Some?
    requires TargetTime(members[a], dayIdx, partNum) == TargetTime(members[b], dayIdx, partNum)
    ensures NumAhead(members, members[a], dayIdx, partNum) == NumAhead(members, members[b], dayIdx, partNum)
  {
    var t := TargetTime(members[a], dayIdx, partNum);
    var p := BeatsAt(members[a].id, dayIdx, partNum, t);
    var q := BeatsAt(members[b].id, dayIdx, partNum, t);
    forall i | 0 <= i < |members|
      ensures p(members[i]) == q(members[i])
    {
      if members[i].id == members[a].id {
        assert i == a;
      }
      if members[i].id == members[b].id {
        assert i == b;
      }
    }
    CountMonotone(members, p, q);
    CountMonotone(members, q, p);
  }
}
