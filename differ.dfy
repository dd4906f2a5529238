/**
 * The snapshot differ inside `refresh`: compares the cached board with the
 * fetched one and emits the notifications, in order, with the rank and star
 * total each carries. The webhook is modelled as the sequence of events sent.
 */
module Differ {
  import opened Wrappers
  import opened Snapshot
  import opened Counting
  import opened Search
  import opened Parser
  import opened Stars
  import opened Ranking
  import opened Ordinal

  /**
   * One notification. `Completed` carries what its message shows: the day
   * (1-based), the part, the completion timestamp, the displayed rank with its
   * ordinal suffix, and the star total with its plural suffix.
   */
  datatype Event =
    | NewChallenger(id: int, name: string)
    | Completed(id: int, name: string, day: int, part: int, gotStarAt: int,
                rank: int, ordinal: string, totalStars: nat, plural: string)

  // ---------------------------------------------------------------------------
  // Specification

  /** Part `partNum` of day index `dayIdx` is recorded now and was not before. */
  predicate NewPart(member: Member, last: Member, dayIdx: DayIndex, partNum: int) {
    PartOf(member.days[dayIdx], partNum).Some? && PartOf(last.days[dayIdx], partNum).None?
  }

  /**
   * Every day whose Part 2 is newly reported against `last` also has Part 1.
   * The rank of a Part 2 message reads the member's Part 1 record, so without
   * it the source dereferences a nil record.
   */
  predicate NewPart2HasPart1(member: Member, last: Member) {
    forall d :: 0 <= d < NumDays && NewPart(member, last, d, 2) ==> member.days[d].part1.Some?
  }

  /** `NewPart2HasPart1` holds for every current member whose ID is on the cached board. */
  predicate RanksReadable(previous: seq<Member>, board: Board) {
    forall i :: 0 <= i < |board.members| ==>
      match Find(previous, HasId(board.members[i].id))
      case None => true
      case Some(last) => NewPart2HasPart1(board.members[i], last)
  }

  /**
   * A part to announce: the day index, the part number and the record the
   * current board holds for it.
   */
  datatype Notice = Notice(dayIdx: DayIndex, partNum: int, record: Part)

  /** The notices of one day: Part 1 before Part 2, each only if newly completed. */
  function DayNotices(member: Member, last: Member, dayIdx: DayIndex): seq<Notice> {
    (if NewPart(member, last, dayIdx, 1) then [Notice(dayIdx, 1, member.days[dayIdx].part1.value)] else [])
    + (if NewPart(member, last, dayIdx, 2) then [Notice(dayIdx, 2, member.days[dayIdx].part2.value)] else [])
  }

  /** The notices of the first `n` days of a known member, in increasing day order. */
  function NoticesUpTo(member: Member, last: Member, n: nat): seq<Notice>
    requires n <= NumDays
  {
    if n == 0 then [] else NoticesUpTo(member, last, n - 1) + DayNotices(member, last, n - 1)
  }

  /**
   * The message for one notice. A Part 1 message leaves that day's Part 2
   * star out of the total; a Part 2 message carries the full total.
   */
  function CompletedEvent(board: Board, member: Member, notice: Notice): Event {
    var total := StarCount(member.days, if notice.partNum == 1 then notice.dayIdx else -1);
    var rank := Ahead(board.members, member.id, notice.dayIdx, notice.partNum, notice.record.gotStarAt) + 1;
    Completed(member.id, member.name, notice.dayIdx + 1, notice.partNum, notice.record.gotStarAt,
              rank, GetOrdinal(rank), total, Plural(total))
  }

  /** The messages for `notices`, one each, in the same order. */
  function Announce(board: Board, member: Member, notices: seq<Notice>): seq<Event> {
    seq(|notices|, i requires 0 <= i < |notices| => CompletedEvent(board, member, notices[i]))
  }

  /**
   * A member whose ID was not on the previous board gets one welcome and
   * nothing else; a known member is compared day by day with its old entry.
   */
  function MemberEvents(previous: seq<Member>, board: Board, member: Member): seq<Event> {
    match Find(previous, HasId(member.id))
    case None => [NewChallenger(member.id, member.name)]
    case Some(last) => Announce(board, member, NoticesUpTo(member, last, |member.days|))
  }

  /** The lists of `parts`, one after the other. */
  function Concat<T>(parts: seq<seq<T>>): seq<T> {
    if parts == [] then [] else Concat(parts[..|parts| - 1]) + parts[|parts| - 1]
  }

  /** Each current member's events, in board order. */
  function PerMember(previous: seq<Member>, board: Board): seq<seq<Event>> {
    seq(|board.members|, j requires 0 <= j < |board.members| => MemberEvents(previous, board, board.members[j]))
  }

  /** Everything one diff of `previous` against `current` sends. */
  function DiffEvents(previous: seq<Member>, current: Board): seq<Event> {
    Concat(PerMember(previous, current))
  }

  // ---------------------------------------------------------------------------
  // The diff

  /** The notification closure `s`: computes the star total, the rank and the suffixes. */
  method Notify(leaderboard: Board, member: Member, dayIdx: DayIndex, part: Part, partNum: int) returns (e: Event)
    requires member.days[dayIdx].part1.Some? && PartOf(member.days[dayIdx], partNum) == Some(part)
    ensures e == CompletedEvent(leaderboard, member, Notice(dayIdx, partNum, part))
  {
    var skipPart2OfDay: int := -1;
    if partNum == 1 {
      skipPart2OfDay := dayIdx;
    }
    var totalStars := GetTotalStars(member, skipPart2OfDay);
    var totalStarsPlural := "s";
    if totalStars == 1 {
      totalStarsPlural := "";
    }
    var numAhead := GetCompletionRank(leaderboard, member, dayIdx, partNum);
    var rank := numAhead + 1;
    e := Completed(member.id, member.name, dayIdx + 1, partNum, part.gotStarAt,
                   rank, GetOrdinal(rank), totalStars, totalStarsPlural);
  }

  /** One iteration of the day loop: Part 1, then Part 2, each notified if newly completed. */
  method DiffDay(leaderboard: Board, member: Member, last: Member, dayIdx: DayIndex) returns (events: seq<Event>)
    requires NewPart(member, last, dayIdx, 2) ==> member.days[dayIdx].part1.Some?
    ensures events == Announce(leaderboard, member, DayNotices(member, last, dayIdx))
  {
    var day := member.days[dayIdx];
    events := [];
    if day.part1.Some? && last.days[dayIdx].part1.None? {
      var e := Notify(leaderboard, member, dayIdx, day.part1.value, 1);
      events := [e];
    }
    if day.part2.Some? && last.days[dayIdx].part2.None? {
      var e := Notify(leaderboard, member, dayIdx, day.part2.value, 2);
      events := events + [e];
    }
  }

  /**
   * The inner loop of `refresh` for a known member: walks the 25 days in order
   * and notifies each part recorded now and not in the cached entry `last`.
   */
  method DiffDays(leaderboard: Board, member: Member, last: Member) returns (events: seq<Event>)
    requires NewPart2HasPart1(member, last)
    ensures events == Announce(leaderboard, member, NoticesUpTo(member, last, |member.days|))
  {
    events := [];
    for dayIdx := 0 to |member.days|
      invariant events == Announce(leaderboard, member, NoticesUpTo(member, last, dayIdx))
    {
      var dayEvents := DiffDay(leaderboard, member, last, dayIdx);
      AnnounceConcat(leaderboard, member, NoticesUpTo(member, last, dayIdx), DayNotices(member, last, dayIdx));
      events := events + dayEvents;
    }
  }

  /**
   * The outer loop of `refresh`: for each current member, look up its ID in the
   * cached board; unknown IDs are welcomed, known ones are walked day by day.
   */
  method Diff(lastLeaderboard: Board, leaderboard: Board) returns (events: seq<Event>)
    requires RanksReadable(lastLeaderboard.members, leaderboard)
    ensures events == DiffEvents(lastLeaderboard.members, leaderboard)
  {
    events := [];
    for i := 0 to |leaderboard.members|
      invariant events == Concat(PerMember(lastLeaderboard.members, leaderboard)[..i])
    {
      assert PerMember(lastLeaderboard.members, leaderboard)[..i + 1][..i]
             == PerMember(lastLeaderboard.members, leaderboard)[..i];
      var member := leaderboard.members[i];
      var lastMember := ArrayFind(lastLeaderboard.members, HasId(member.id));
      if lastMember.None? {
        events := events + [NewChallenger(member.id, member.name)];
        continue;
      }
      var memberEvents := DiffDays(leaderboard, member, lastMember.value);
      events := events + memberEvents;
    }
    assert PerMember(lastLeaderboard.members, leaderboard)[..|leaderboard.members|]
           == PerMember(lastLeaderboard.members, leaderboard);
  }

  // ---------------------------------------------------------------------------
  // One poll cycle

  /** A response body: absent (nothing cached yet), undecodable, or a decoded document. */
  datatype Body = Empty | Malformed | Document(raw: RawBoard)

  /** The board a body yields; an empty body does not decode either. */
  function Decoded(body: Body): Result<Board, ParseError> {
    match body
    case Document(raw) => ParseBoard(raw)
    case _ => Err(Undecodable)
  }

  /**
   * What one cycle sends: nothing on the first run (no cached body), nothing
   * when either body fails to build, otherwise the diff.
   */
  function CycleEvents(lastBody: Body, currBody: Body): seq<Event> {
    if lastBody.Empty? then []
    else
      match (Decoded(lastBody), Decoded(currBody))
      case (Ok(lastBoard), Ok(board)) => DiffEvents(lastBoard.members, board)
      case _ => []
  }

  method BuildFromBody(body: Body) returns (r: Result<Board, ParseError>)
    ensures r == Decoded(body)
  {
    if body.Document? {
      r := BuildLeaderboard(body.raw);
    } else {
      r := Err(Undecodable);
    }
  }

  /**
   * The part of `refresh` after the download: returns early on a first run,
   * builds the cached board and then the fetched one, and diffs them. Every
   * newly reported Part 2 must come with its Part 1, which the rank reads.
   */
  method Refresh(lastBody: Body, currBody: Body) returns (events: seq<Event>)
    requires Decoded(lastBody).Ok? && Decoded(currBody).Ok? ==>
               RanksReadable(Decoded(lastBody).value.members, Decoded(currBody).value)
    ensures lastBody.Empty? ==> events == []
    ensures events == CycleEvents(lastBody, currBody)
  {
    if lastBody.Empty? {
      return [];
    }
    var lastLeaderboard := BuildFromBody(lastBody);
    if lastLeaderboard.Err? {
      return [];
    }
    var leaderboard := BuildFromBody(currBody);
    if leaderboard.Err? {
      return [];
    }
    events := Diff(lastLeaderboard.value, leaderboard.value);
  }

  // ---------------------------------------------------------------------------
  // Which parts are announced, and in which order

  /**
   * A known member's notices are exactly its parts recorded now and not in
   * the cached entry, each carrying its current record.
   */
  lemma {:induction false} InNotices(member: Member, last: Member, n: nat, x: Notice)
    requires n <= NumDays
    ensures x in NoticesUpTo(member, last, n)
            <==> x.dayIdx < n && (x.partNum == 1 || x.partNum == 2) && NewPart(member, last, x.dayIdx, x.partNum) &&
                 x.record == PartOf(member.days[x.dayIdx], x.partNum).value
    decreases n
  {
    if n > 0 {
      InNotices(member, last, n - 1, x);
      InDayNotices(member, last, n - 1, x);
      var a := NoticesUpTo(member, last, n - 1);
      var b := DayNotices(member, last, n - 1);
      assert NoticesUpTo(member, last, n) == a + b;
      assert x in a + b <==> x in a || x in b;
    }
  }

  /** One day's notices are its parts recorded now and not in the cached entry. */
  lemma InDayNotices(member: Member, last: Member, dayIdx: DayIndex, x: Notice)
    ensures x in DayNotices(member, last, dayIdx)
            <==> x.dayIdx == dayIdx && (x.partNum == 1 || x.partNum == 2) && NewPart(member, last, dayIdx, x.partNum) &&
                 x.record == PartOf(member.days[dayIdx], x.partNum).value
  {
  }

  /** The place of part `part` of day `day` in report order: by day, then Part 1 before Part 2. */
  function Position(day: int, part: int): int {
    2 * day + part
  }

  function NoticeKey(x: Notice): int {
    Position(x.dayIdx + 1, x.partNum)
  }

  /** `key` strictly increases along `s`. */
  predicate IncreasingBy<T>(s: seq<T>, key: T -> int) {
    forall i, j :: 0 <= i < j < |s| ==> key(s[i]) < key(s[j])
  }

  /**
   * A known member's notices come in increasing day order, Part 1 before
   * Part 2, and no (day, part) twice.
   */
  lemma {:induction false} NoticesIncreasing(member: Member, last: Member, n: nat)
    requires n <= NumDays
    ensures IncreasingBy(NoticesUpTo(member, last, n), NoticeKey)
    decreases n
  {
    if n > 0 {
      NoticesIncreasing(member, last, n - 1);
      var a := NoticesUpTo(member, last, n - 1);
      var b := DayNotices(member, last, n - 1);
      var ns := a + b;
      forall i, j | 0 <= i < j < |ns|
        ensures NoticeKey(ns[i]) < NoticeKey(ns[j])
      {
        if j < |a| {
          assert ns[i] == a[i] && ns[j] == a[j];
        } else if i < |a| {
          InNotices(member, last, n - 1, a[i]);
          assert ns[i] == a[i] && ns[j] == b[j - |a|];
        } else {
          assert ns[i] == b[i - |a|] && ns[j] == b[j - |a|];
        }
      }
    }
  }

  /** Nothing is new when a member is compared with itself. */
  lemma {:induction false} NothingNewAgainstSelf(member: Member, n: nat)
    requires n <= NumDays
    ensures NoticesUpTo(member, member, n) == []
    decreases n
  {
    if n > 0 {
      NothingNewAgainstSelf(member, n - 1);
    }
  }

  // ---------------------------------------------------------------------------
  // The messages

  /** Announcing two runs of notices one after the other sends their messages one after the other. */
  lemma AnnounceConcat(board: Board, member: Member, a: seq<Notice>, b: seq<Notice>)
    ensures Announce(board, member, a + b) == Announce(board, member, a) + Announce(board, member, b)
  {
    var ab := a + b;
    forall i | 0 <= i < |ab|
      ensures Announce(board, member, ab)[i] == (Announce(board, member, a) + Announce(board, member, b))[i]
    {
      if i >= |a| {
        assert ab[i] == b[i - |a|];
      }
    }
  }

  /** A message is sent for `notices` exactly when it is the message of one of them. */
  lemma InAnnounce(board: Board, member: Member, notices: seq<Notice>, e: Event)
    ensures e in Announce(board, member, notices)
            <==> exists i :: 0 <= i < |notices| && e == CompletedEvent(board, member, notices[i])
  {
    var evs := Announce(board, member, notices);
    if e in evs {
      var i :| 0 <= i < |evs| && evs[i] == e;
    }
    if exists i :: 0 <= i < |notices| && e == CompletedEvent(board, member, notices[i]) {
      var i :| 0 <= i < |notices| && e == CompletedEvent(board, member, notices[i]);
      assert evs[i] == e;
    }
  }

  /** A message names its member, the 1-based day, the part and the record's timestamp. */
  lemma CompletedEventHeader(board: Board, member: Member, x: Notice)
    ensures var e := CompletedEvent(board, member, x);
            e.Completed? && e.id == member.id && e.name == member.name &&
            e.day == x.dayIdx + 1 && e.part == x.partNum && e.gotStarAt == x.record.gotStarAt
  {
  }

  function Key(e: Event): int {
    if e.Completed? then Position(e.day, e.part) else 0
  }

  /**
   * One member's messages come in increasing day order, Part 1 before Part 2,
   * and never twice for the same (day, part).
   */
  lemma EventsOrdered(previous: seq<Member>, board: Board, member: Member)
    ensures IncreasingBy(MemberEvents(previous, board, member), Key)
  {
    match Find(previous, HasId(member.id))
    case None =>
    case Some(last) =>
      var ns := NoticesUpTo(member, last, |member.days|);
      var evs := Announce(board, member, ns);
      NoticesIncreasing(member, last, |member.days|);
      forall i, j | 0 <= i < j < |evs|
        ensures Key(evs[i]) < Key(evs[j])
      {
        CompletedEventHeader(board, member, ns[i]);
        CompletedEventHeader(board, member, ns[j]);
      }
  }

  // ---------------------------------------------------------------------------
  // Properties of the diff

  /** An element is in the concatenation exactly when it is in one of the parts. */
  lemma {:induction false} InConcat<T>(parts: seq<seq<T>>, x: T)
    ensures x in Concat(parts) <==> exists j :: 0 <= j < |parts| && x in parts[j]
    decreases |parts|
  {
    if parts != [] {
      var n := |parts| - 1;
      InConcat(parts[..n], x);
      assert Concat(parts) == Concat(parts[..n]) + parts[n];
      if exists j :: 0 <= j < |parts| && x in parts[j] {
        var j :| 0 <= j < |parts| && x in parts[j];
        if j < n {
          assert parts[..n][j] == parts[j];
        }
      }
    }
  }

  /** Concatenating empty parts gives nothing. */
  lemma {:induction false} ConcatEmpty<T>(parts: seq<seq<T>>)
    requires forall j :: 0 <= j < |parts| ==> parts[j] == []
    ensures Concat(parts) == []
    decreases |parts|
  {
    if parts != [] {
      ConcatEmpty(parts[..|parts| - 1]);
    }
  }

  /** Concatenation splits at any index into the concatenations of the two sides. */
  lemma {:induction false} ConcatSplit<T>(parts: seq<seq<T>>, j: nat)
    requires j <= |parts|
    ensures Concat(parts) == Concat(parts[..j]) + Concat(parts[j..])
    decreases |parts|
  {
    if j == |parts| {
      assert parts[..j] == parts;
      assert parts[j..] == [];
    } else {
      var n := |parts| - 1;
      ConcatSplit(parts[..n], j);
      assert parts[..n][..j] == parts[..j];
      assert parts[j..][..|parts[j..]| - 1] == parts[..n][j..];
      assert parts[j..][|parts[j..]| - 1] == parts[n];
    }
  }

  /**
   * The diff reports members in board order: all events of the first `j`
   * current members come before all events of the others.
   */
  lemma MembersInOrder(previous: seq<Member>, board: Board, j: nat)
    requires j <= |board.members|
    ensures DiffEvents(previous, board)
            == Concat(PerMember(previous, board)[..j]) + Concat(PerMember(previous, board)[j..])
  {
    ConcatSplit(PerMember(previous, board), j);
  }

  /** The diff sends exactly the events of its members. */
  lemma InDiffEvents(previous: seq<Member>, board: Board, e: Event)
    ensures e in DiffEvents(previous, board)
            <==> exists j :: 0 <= j < |board.members| && e in MemberEvents(previous, board, board.members[j])
  {
    var lists := PerMember(previous, board);
    InConcat(lists, e);
    if e in DiffEvents(previous, board) {
      var j :| 0 <= j < |lists| && e in lists[j];
      assert e in MemberEvents(previous, board, board.members[j]);
    }
    if exists j :: 0 <= j < |board.members| && e in MemberEvents(previous, board, board.members[j]) {
      var j :| 0 <= j < |board.members| && e in MemberEvents(previous, board, board.members[j]);
      assert e in lists[j];
    }
  }

  /** With unique IDs, looking a member's ID up on its own board finds that member. */
  lemma FindOwnEntry(members: seq<Member>, k: nat)
    requires UniqueIds(members) && k < |members|
    ensures Find(members, HasId(members[k].id)) == Some(members[k])
  {
    FindSpec(members, HasId(members[k].id));
    var r := Find(members, HasId(members[k].id));
    var j :| 0 <= j < |members| && members[j] == r.value && HasId(members[k].id)(members[j]) &&
             forall i :: 0 <= i < j ==> !HasId(members[k].id)(members[i]);
    assert j == k;
  }

  /** Some event in `events` reports part `partNum` of day index `dayIdx` for member `id`. */
  predicate CompletionSent(events: seq<Event>, id: int, dayIdx: DayIndex, partNum: int) {
    exists e :: e in events && e.Completed? && e.id == id && e.day == dayIdx + 1 && e.part == partNum
  }

  /** The member's ID is on the cached board and the part is recorded now but not in the cached entry. */
  predicate KnownAndNew(previous: seq<Member>, member: Member, dayIdx: DayIndex, partNum: int) {
    match Find(previous, HasId(member.id))
    case None => false
    case Some(last) => NewPart(member, last, dayIdx, partNum)
  }

  /**
   * A completion event for a member, day and part is sent if and only if the
   * member's ID was on the cached board and that part is recorded now but not
   * in the cached entry.
   */
  lemma CompletedIff(previous: seq<Member>, current: Board, k: nat, dayIdx: DayIndex, partNum: int)
    requires UniqueIds(current.members) && k < |current.members| && (partNum == 1 || partNum == 2)
    ensures CompletionSent(DiffEvents(previous, current), current.members[k].id, dayIdx, partNum)
            <==> KnownAndNew(previous, current.members[k], dayIdx, partNum)
  {
    var m := current.members[k];
    if CompletionSent(DiffEvents(previous, current), m.id, dayIdx, partNum) {
      SentOnlyIfNew(previous, current, k, dayIdx, partNum);
    }
    if KnownAndNew(previous, m, dayIdx, partNum) {
      var last := Find(previous, HasId(m.id)).value;
      var ns := NoticesUpTo(m, last, |m.days|);
      var x := Notice(dayIdx, partNum, PartOf(m.days[dayIdx], partNum).value);
      InNotices(m, last, |m.days|, x);
      var i :| 0 <= i < |ns| && ns[i] == x;
      var e := CompletedEvent(current, m, x);
      assert Announce(current, m, ns)[i] == e;
      assert e in MemberEvents(previous, current, m);
      InDiffEvents(previous, current, e);
      CompletedEventHeader(current, m, x);
      assert e in DiffEvents(previous, current);
    }
  }

  lemma SentOnlyIfNew(previous: seq<Member>, current: Board, k: nat, dayIdx: DayIndex, partNum: int)
    requires UniqueIds(current.members) && k < |current.members|
    requires CompletionSent(DiffEvents(previous, current), current.members[k].id, dayIdx, partNum)
    ensures KnownAndNew(previous, current.members[k], dayIdx, partNum)
  {
    var m := current.members[k];
    var e :| e in DiffEvents(previous, current) && e.Completed? &&
             e.id == m.id && e.day == dayIdx + 1 && e.part == partNum;
    InDiffEvents(previous, current, e);
    var j :| 0 <= j < |current.members| && e in MemberEvents(previous, current, current.members[j]);
    var other := current.members[j];
    var found := Find(previous, HasId(other.id));
    assert found.Some?;
    var ns := NoticesUpTo(other, found.value, |other.days|);
    InAnnounce(current, other, ns, e);
    var i :| 0 <= i < |ns| && e == CompletedEvent(current, other, ns[i]);
    CompletedEventHeader(current, other, ns[i]);
    assert j == k;
    InNotices(other, found.value, |other.days|, ns[i]);
  }

  /** A member is welcomed if and only if its ID was not on the cached board. */
  lemma NewChallengerIff(previous: seq<Member>, current: Board, k: nat)
    requires UniqueIds(current.members) && k < |current.members|
    ensures (exists e :: e in DiffEvents(previous, current) && e.NewChallenger? && e.id == current.members[k].id)
            <==> forall j :: 0 <= j < |previous| ==> previous[j].id != current.members[k].id
  {
    var m := current.members[k];
    var n := |current.members|;
    FindSpec(previous, HasId(m.id));
    if e :| e in DiffEvents(previous, current) && e.NewChallenger? && e.id == m.id {
      InDiffEvents(previous, current, e);
      var j :| 0 <= j < n && e in MemberEvents(previous, current, current.members[j]);
      var other := current.members[j];
      var found := Find(previous, HasId(other.id));
      if found.Some? {
        InAnnounce(current, other, NoticesUpTo(other, found.value, |other.days|), e);
      }
      assert j == k;
    }
    if forall j :: 0 <= j < |previous| ==> previous[j].id != m.id {
      var e := NewChallenger(m.id, m.name);
      assert e in MemberEvents(previous, current, m);
      InDiffEvents(previous, current, e);
    }
  }

  /**
   * A member unknown to the cached board gets exactly one welcome and no
   * completion events, however many stars it already has.
   */
  lemma UnknownMemberEvents(previous: seq<Member>, board: Board, member: Member)
    requires forall j :: 0 <= j < |previous| ==> previous[j].id != member.id
    ensures MemberEvents(previous, board, member) == [NewChallenger(member.id, member.name)]
  {
    FindSpec(previous, HasId(member.id));
  }

  /** Diffing a board with unique IDs against itself sends nothing. */
  lemma DiffIdempotent(board: Board)
    requires UniqueIds(board.members)
    ensures DiffEvents(board.members, board) == []
  {
    var lists := PerMember(board.members, board);
    forall j | 0 <= j < |lists|
      ensures lists[j] == []
    {
      var m := board.members[j];
      FindOwnEntry(board.members, j);
      NothingNewAgainstSelf(m, |m.days|);
    }
    ConcatEmpty(lists);
  }

  /**
   * What a completion event for member `m` carries: the day and part name one
   * of `m`'s records and the timestamp is that record's; the star total counts
   * every Part 1 and Part 2 record except, on a Part 1 event, that day's Part 2;
   * the rank is one more than the number of other members strictly ahead, lies
   * between 1 and the board size, and has the English ordinal suffix; the
   * plural suffix is dropped only for one star.
   */
  predicate Carries(board: Board, m: Member, e: Event) {
    e.Completed? && e.id == m.id &&
    1 <= e.day <= NumDays && (e.part == 1 || e.part == 2) &&
    var day := m.days[e.day - 1];
    PartOf(day, e.part).Some? && e.gotStarAt == PartOf(day, e.part).value.gotStarAt &&
    e.totalStars == Count(m.days, HasPart1) + Count(m.days, HasPart2)
                    - (if e.part == 1 && day.part2.Some? then 1 else 0) &&
    e.rank == NumAhead(board.members, m, e.day - 1, e.part) + 1 &&
    1 <= e.rank <= |board.members| &&
    e.ordinal == EnglishSuffix(e.rank) &&
    (e.plural == "" <==> e.totalStars == 1)
  }

  /** Every completion event a member gets carries its payload as described by `Carries`. */
  lemma EventPayload(previous: seq<Member>, board: Board, k: nat, e: Event)
    requires k < |board.members| && e in MemberEvents(previous, board, board.members[k]) && e.Completed?
    ensures Carries(board, board.members[k], e)
  {
    var m := board.members[k];
    var found := Find(previous, HasId(m.id));
    assert found.Some?;
    var ns := NoticesUpTo(m, found.value, |m.days|);
    InAnnounce(board, m, ns, e);
    var i :| 0 <= i < |ns| && e == CompletedEvent(board, m, ns[i]);
    InNotices(m, found.value, |m.days|, ns[i]);
    CompletedEventPayload(board, k, ns[i]);
  }

  /** The message built for a notice of a member on the board carries the payload. */
  lemma CompletedEventPayload(board: Board, k: nat, x: Notice)
    requires k < |board.members| && (x.partNum == 1 || x.partNum == 2)
    requires PartOf(board.members[k].days[x.dayIdx], x.partNum) == Some(x.record)
    ensures Carries(board, board.members[k], CompletedEvent(board, board.members[k], x))
  {
    var m := board.members[k];
    var e := CompletedEvent(board, m, x);
    StarCountSplit(m.days, if x.partNum == 1 then x.dayIdx else -1);
    RankBounds(board.members, k, x.dayIdx, x.partNum);
    OrdinalIsEnglish(NumAhead(board.members, m, x.dayIdx, x.partNum) + 1);
    assert m.days[e.day - 1] == m.days[x.dayIdx];
  }
}
