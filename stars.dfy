/** The member's star total attached to each completion (`getTotalStars`). */
module Stars {
  import opened Snapshot
  import opened Counting

  predicate HasPart1(d: Day) { d.part1.Some? }

  predicate HasPart2(d: Day) { d.part2.Some? }

  /**
   * The stars in `days`: every Part 1 record and every Part 2 record except the
   * one of day index `skipPart2OfDay` (pass -1 to skip nothing).
   */
  function StarCount(days: seq<Day>, skipPart2OfDay: int): nat {
    if days == [] then 0
    else
      var i := |days| - 1;
      StarCount(days[..i], skipPart2OfDay)
      + (if HasPart1(days[i]) then 1 else 0)
      + (if HasPart2(days[i]) && skipPart2OfDay != i then 1 else 0)
  }

  /** `getTotalStars`: the counting loop over the member's table. */
  method GetTotalStars(member: Member, skipPart2OfDay: int) returns (total: nat)
    ensures total == StarCount(member.days, skipPart2OfDay)
  {
    total := 0;
    for dayIdx := 0 to |member.days|
      invariant total == StarCount(member.days[..dayIdx], skipPart2OfDay)
    {
      var day := member.days[dayIdx];
      if day.part1.Some? {
        total := total + 1;
      }
      if day.part2.Some? && skipPart2OfDay != dayIdx {
        total := total + 1;
      }
      assert member.days[..dayIdx + 1][..dayIdx] == member.days[..dayIdx];
    }
    assert member.days[..|member.days|] == member.days;
  }

  /**
   * The star total is the number of Part 1 records plus the number of Part 2
   * records, less one exactly when the skipped day has a Part 2 record.
   */
  lemma {:induction false} StarCountSplit(days: seq<Day>, skipPart2OfDay: int)
    ensures StarCount(days, skipPart2OfDay)
            == Count(days, HasPart1) + Count(days, HasPart2)
               - (if 0 <= skipPart2OfDay < |days| && days[skipPart2OfDay].part2.Some? then 1 else 0)
    decreases |days|
  {
    if days != [] {
      var i := |days| - 1;
      StarCountSplit(days[..i], skipPart2OfDay);
      if 0 <= skipPart2OfDay < i {
        assert days[..i][skipPart2OfDay] == days[skipPart2OfDay];
      }
    }
  }

  /** With nothing skipped the total lies between 0 and two stars per day. */
  lemma TotalStarsBounds(days: seq<Day>)
    ensures StarCount(days, -1) == Count(days, HasPart1) + Count(days, HasPart2)
    ensures StarCount(days, -1) <= 2 * |days|
  {
  }

  /** Skipping a day's Part 2 lowers the total by one when that record exists, else not at all. */
  lemma SkipLowersByOne(days: seq<Day>, dayIdx: nat)
    requires dayIdx < |days|
    ensures days[dayIdx].part2.Some? ==> StarCount(days, dayIdx) == StarCount(days, -1) - 1
    ensures days[dayIdx].part2.None? ==> StarCount(days, dayIdx) == StarCount(days, -1)
  {
    StarCountSplit(days, dayIdx);
    StarCountSplit(days, -1);
  }

  /** The noun suffix after the star total: none for exactly one star, "s" otherwise. */
  function Plural(totalStars: int): (s: string)
    ensures s == "" <==> totalStars == 1
    ensures s == "" || s == "s"
  {
    if totalStars == 1 then "" else "s"
  }
}
