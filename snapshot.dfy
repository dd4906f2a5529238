/**
 * The leaderboard data model: a board of members, each with a fixed table
 * of 25 day slots holding an optional Part 1 and an optional Part 2 record.
 */
module Snapshot {
  import opened Wrappers

  /** The event runs 25 days; every member carries exactly one slot per day. */
  const NumDays: nat := 25

  /** Evidence that one part of one day was solved (`completionPartData`). */
  datatype Part = Part(gotStarAt: int, starIndex: int)

  /** One day slot: the optional Part 1 and Part 2 records (`completionDayData`). */
  datatype Day = Day(part1: Option<Part>, part2: Option<Part>)

  /** A slot for a day the member has not touched. */
  const NoDay: Day := Day(None, None)

  /** A zero-based day index; index `i` is day `i + 1`. */
  type DayIndex = i: int | 0 <= i < NumDays

  /** The per-member completion table: always exactly 25 slots. */
  type Table = t: seq<Day> | |t| == NumDays witness seq(NumDays, _ => Day(None, None))

  /** One participant (`memberData`); only `id`, `name` and `days` matter to the diff. */
  datatype Member = Member(
    name: string,
    days: Table,
    id: int,
    localScore: int,
    globalScore: int,
    stars: int,
    lastStarTs: int)

  /** One fetched leaderboard (`leaderboardData`); members are kept in document order. */
  datatype Board = Board(event: string, members: seq<Member>, ownerId: int)

  /** The record of part `partNum` in `day`: 1 selects Part 1, any other number Part 2. */
  function PartOf(day: Day, partNum: int): Option<Part> {
    if partNum == 1 then day.part1 else day.part2
  }

  /** The lookup predicate the diff hands to the search: "has this member ID". */
  function HasId(id: int): Member -> bool {
    (m: Member) => m.id == id
  }

  /** Member IDs are unique within one snapshot. */
  predicate UniqueIds(ms: seq<Member>) {
    forall i, j :: 0 <= i < j < |ms| ==> ms[i].id != ms[j].id
  }
}
