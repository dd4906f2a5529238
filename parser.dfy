/**
 * Building a snapshot from a decoded document (`buildLeaderboard`). The JSON
 * decoding itself is library code; its output is the `Raw*` datatypes below,
 * every keyed collection given as its entries in document order.
 */
module Parser {
  import opened Wrappers
  import opened Snapshot

  /** One entry of a day's object: the part key ("1", "2", ...) and its record. */
  datatype RawPart = RawPart(key: string, record: Part)

  /** One entry of `completion_day_level`: the day key and the day's part entries. */
  datatype RawDay = RawDay(key: string, parts: seq<RawPart>)

  /** One entry of `members`, with the scalar fields already decoded. */
  datatype RawMember = RawMember(
    name: string,
    id: int,
    localScore: int,
    globalScore: int,
    stars: int,
    lastStarTs: int,
    completion: seq<RawDay>)

  datatype RawBoard = RawBoard(event: string, ownerId: int, members: seq<RawMember>)

  /**
   * Why a document yields no snapshot: it could not be decoded at all, or a day
   * key does not name a slot 1..25 (where the source indexes out of range).
   */
  datatype ParseError = Undecodable | BadDayKey(key: string)

  // ---------------------------------------------------------------------------
  // Day keys: `strconv.Atoi`, with its error ignored

  predicate IsDigit(c: char) { '0' <= c <= '9' }

  predicate AllDigits(s: string) { forall i :: 0 <= i < |s| ==> IsDigit(s[i]) }

  /** The decimal value of a digit string, most significant digit first. */
  function DigitsValue(s: string): nat
    requires AllDigits(s)
  {
    if s == [] then 0 else 10 * DigitsValue(s[..|s| - 1]) + (s[|s| - 1] - '0') as nat
  }

  /** `strconv.Atoi`: an optional sign followed by at least one decimal digit. */
  function Atoi(s: string): Option<int> {
    if |s| > 0 && (s[0] == '+' || s[0] == '-') then
      var digits := s[1..];
      if |digits| > 0 && AllDigits(digits) then
        var magnitude: int := DigitsValue(digits);
        Some(if s[0] == '-' then -magnitude else magnitude)
      else None
    else if |s| > 0 && AllDigits(s) then Some(DigitsValue(s))
    else None
  }

  /** The day number of a key: Atoi's value, or 0 when Atoi fails (its error is ignored). */
  function DayNumber(key: string): int {
    match Atoi(key)
    case Some(n) => n
    case None => 0
  }

  /** A key whose day number names one of the 25 slots. */
  predicate ValidDayKey(key: string) {
    1 <= DayNumber(key) <= NumDays
  }

  /** The decimal spelling of `n` without sign or leading zeros. */
  function Decimal(n: nat): (s: string)
    ensures |s| > 0 && AllDigits(s)
  {
    if n < 10 then ['0' + n as char] else Decimal(n / 10) + ['0' + (n % 10) as char]
  }

  /** Day keys written in decimal, with or without a leading '+', name their day. */
  lemma {:induction false} DecimalRoundTrip(n: nat)
    ensures Atoi(Decimal(n)) == Some(n)
    ensures Atoi("+" + Decimal(n)) == Some(n)
    ensures n > 0 ==> Atoi("-" + Decimal(n)) == Some(-(n as int))
  {
    DigitsOfDecimal(n);
    var s := Decimal(n);
    assert ("+" + s)[1..] == s;
    assert ("-" + s)[1..] == s;
    assert s[0] != '+' && s[0] != '-' by { assert IsDigit(s[0]); }
  }

  lemma {:induction false} DigitsOfDecimal(n: nat)
    ensures DigitsValue(Decimal(n)) == n
  {
    if n >= 10 {
      DigitsOfDecimal(n / 10);
      var s := Decimal(n);
      assert s[..|s| - 1] == Decimal(n / 10);
    }
  }

  // ---------------------------------------------------------------------------
  // Specification of the table

  /** Whether a part key selects Part 1 ("1") or Part 2 (any other key). */
  predicate SelectsPart1(key: string) { key == "1" }

  /**
   * The record a day slot ends up with for Part 1 (`wantPart1`) or Part 2:
   * the last entry whose key selects that part, since later entries overwrite.
   */
  function LastPart(parts: seq<RawPart>, wantPart1: bool): Option<Part> {
    if parts == [] then None
    else
      var n := |parts| - 1;
      if SelectsPart1(parts[n].key) == wantPart1 then Some(parts[n].record)
      else LastPart(parts[..n], wantPart1)
  }

  /** The slot built from one day's part entries. */
  function DayValue(parts: seq<RawPart>): Day {
    Day(LastPart(parts, true), LastPart(parts, false))
  }

  /**
   * Slot `k` (1-based) after all day entries: the day of the last entry whose
   * key has day number `k`, or an empty slot when no entry has it.
   */
  function DaySlot(days: seq<RawDay>, k: int): Day {
    if days == [] then NoDay
    else
      var n := |days| - 1;
      if DayNumber(days[n].key) == k then DayValue(days[n].parts)
      else DaySlot(days[..n], k)
  }

  /** The full 25-slot table of a member: slot `i` is day `i + 1`. */
  function TableOf(days: seq<RawDay>): Table {
    seq(NumDays, i => DaySlot(days, i + 1))
  }

  /** The first day key naming no slot, if any; the build stops there. */
  function FirstBadDay(days: seq<RawDay>): Option<string> {
    if days == [] then None
    else if !ValidDayKey(days[0].key) then Some(days[0].key)
    else FirstBadDay(days[1..])
  }

  /** The build fails on a member exactly when one of its day keys names no slot. */
  lemma {:induction false} FirstBadDayNone(days: seq<RawDay>)
    ensures FirstBadDay(days).None? <==> forall j :: 0 <= j < |days| ==> ValidDayKey(days[j].key)
    decreases |days|
  {
    if days != [] {
      FirstBadDayNone(days[1..]);
      assert forall j :: 1 <= j < |days| ==> days[j] == days[1..][j - 1];
    }
  }

  /** The key reported is that of the first entry naming no slot. */
  lemma {:induction false} FirstBadDayAt(days: seq<RawDay>, i: nat)
    requires i < |days| && !ValidDayKey(days[i].key)
    requires forall j :: 0 <= j < i ==> ValidDayKey(days[j].key)
    ensures FirstBadDay(days) == Some(days[i].key)
    decreases i
  {
    if i > 0 {
      assert forall j :: 0 <= j < i - 1 ==> days[1..][j] == days[j + 1];
      FirstBadDayAt(days[1..], i - 1);
    }
  }

  /** The first bad day key over all members in document order. */
  function FirstBadKey(members: seq<RawMember>): (r: Option<string>)
    ensures r.None? <==> forall j :: 0 <= j < |members| ==> FirstBadDay(members[j].completion).None?
  {
    if members == [] then None
    else if FirstBadDay(members[0].completion).Some? then FirstBadDay(members[0].completion)
    else
      assert forall j :: 1 <= j < |members| ==> members[j] == members[1..][j - 1];
      FirstBadKey(members[1..])
  }

  function MemberOf(raw: RawMember): Member {
    Member(raw.name, TableOf(raw.completion), raw.id, raw.localScore, raw.globalScore,
           raw.stars, raw.lastStarTs)
  }

  /** The board of a document all of whose day keys are valid, members in document order. */
  function BoardOf(raw: RawBoard): Board {
    Board(raw.event, seq(|raw.members|, i requires 0 <= i < |raw.members| => MemberOf(raw.members[i])),
          raw.ownerId)
  }

  /** The snapshot a decoded document denotes, or the first bad day key. */
  function ParseBoard(raw: RawBoard): Result<Board, ParseError> {
    match FirstBadKey(raw.members)
    case Some(key) => Err(BadDayKey(key))
    case None => Ok(BoardOf(raw))
  }

  // ---------------------------------------------------------------------------
  // The build

  /** The inner visit: each part entry overwrites Part 1 (key "1") or Part 2 (any other key). */
  method BuildDay(parts: seq<RawPart>) returns (day: Day)
    ensures day == DayValue(parts)
  {
    day := Day(None, None);
    for i := 0 to |parts|
      invariant day == DayValue(parts[..i])
    {
      assert parts[..i + 1][..i] == parts[..i];
      if parts[i].key == "1" {
        day := day.(part1 := Some(parts[i].record));
      } else {
        day := day.(part2 := Some(parts[i].record));
      }
    }
    assert parts[..|parts|] == parts;
  }

  /**
   * One member's table: 25 empty slots, then each day entry in order overwrites
   * slot `day - 1`. A day number outside 1..25 stops the build with that key.
   */
  method FillTable(days: seq<RawDay>) returns (r: Result<Table, ParseError>)
    ensures r.Ok? <==> FirstBadDay(days).None?
    ensures r.Ok? ==> r.value == TableOf(days)
    ensures r.Err? ==> r.error == BadDayKey(FirstBadDay(days).value)
  {
    var table := new Day[NumDays](_ => Day(None, None));
    assert table[..] == TableOf([]);
    for i := 0 to |days|
      invariant forall j :: 0 <= j < i ==> ValidDayKey(days[j].key)
      invariant table[..] == TableOf(days[..i])
    {
      var day := BuildDay(days[i].parts);
      var completionDayNum := DayNumber(days[i].key);
      if !(1 <= completionDayNum <= NumDays) {
        FirstBadDayAt(days, i);
        return Err(BadDayKey(days[i].key));
      }
      ghost var before := table[..];
      table[completionDayNum - 1] := day;
      assert table[..] == before[completionDayNum - 1 := day];
      TableSnoc(days, i);
    }
    assert days[..|days|] == days;
    FirstBadDayNone(days);
    return Ok(table[..]);
  }

  /** `buildLeaderboard`: every member in document order gets its own table. */
  method BuildLeaderboard(raw: RawBoard) returns (r: Result<Board, ParseError>)
    ensures r == ParseBoard(raw)
  {
    var members: seq<Member> := [];
    for i := 0 to |raw.members|
      invariant forall j :: 0 <= j < i ==> FirstBadDay(raw.members[j].completion).None?
      invariant |members| == i
      invariant forall j :: 0 <= j < i ==> members[j] == MemberOf(raw.members[j])
    {
      var rm := raw.members[i];
      var table := FillTable(rm.completion);
      if table.Err? {
        FirstBadKeyAt(raw.members, i);
        return Err(table.error);
      }
      members := members + [Member(rm.name, table.value, rm.id, rm.localScore, rm.globalScore,
                                   rm.stars, rm.lastStarTs)];
    }
    assert members == BoardOf(raw).members;
    return Ok(Board(raw.event, members, raw.ownerId));
  }

  /** Appending one day entry changes only the slot its key names. */
  lemma DaySlotSnoc(days: seq<RawDay>, i: nat, k: int)
    requires i < |days|
    ensures DaySlot(days[..i + 1], k)
            == if DayNumber(days[i].key) == k then DayValue(days[i].parts) else DaySlot(days[..i], k)
  {
    assert days[..i + 1][..i] == days[..i];
  }

  /** Appending a day entry with a valid key overwrites exactly the slot it names. */
  lemma TableSnoc(days: seq<RawDay>, i: nat)
    requires i < |days| && ValidDayKey(days[i].key)
    ensures TableOf(days[..i + 1]) == TableOf(days[..i])[DayNumber(days[i].key) - 1 := DayValue(days[i].parts)]
  {
    var after := TableOf(days[..i + 1]);
    var updated := TableOf(days[..i])[DayNumber(days[i].key) - 1 := DayValue(days[i].parts)];
    forall k | 0 <= k < NumDays
      ensures after[k] == updated[k]
    {
      DaySlotSnoc(days, i, k + 1);
    }
  }

  /** The first member with a bad key supplies the key the build reports. */
  lemma {:induction false} FirstBadKeyAt(members: seq<RawMember>, i: nat)
    requires i < |members| && FirstBadDay(members[i].completion).Some?
    requires forall j :: 0 <= j < i ==> FirstBadDay(members[j].completion).None?
    ensures FirstBadKey(members) == FirstBadDay(members[i].completion)
  {
    if i > 0 {
      assert forall j :: 0 <= j < i - 1 ==> members[1..][j] == members[j + 1];
      FirstBadKeyAt(members[1..], i - 1);
    }
  }

  // ---------------------------------------------------------------------------
  // Properties of the table

  /**
   * A part is present exactly when some entry selects it, and then it holds the
   * record of the last such entry.
   */
  lemma {:induction false} LastPartSpec(parts: seq<RawPart>, wantPart1: bool)
    ensures LastPart(parts, wantPart1).None?
            <==> forall j :: 0 <= j < |parts| ==> SelectsPart1(parts[j].key) != wantPart1
    ensures forall j :: 0 <= j < |parts| && SelectsPart1(parts[j].key) == wantPart1 &&
                        (forall k :: j < k < |parts| ==> SelectsPart1(parts[k].key) != wantPart1)
                        ==> LastPart(parts, wantPart1) == Some(parts[j].record)
    decreases |parts|
  {
    if parts != [] {
      var n := |parts| - 1;
      LastPartSpec(parts[..n], wantPart1);
      assert forall j :: 0 <= j < n ==> parts[..n][j] == parts[j];
    }
  }

  /** A slot has Part 1 exactly when some entry is keyed "1", and Part 2 exactly when some entry has another key. */
  lemma PartKeys(parts: seq<RawPart>)
    ensures DayValue(parts).part1.Some? <==> exists j :: 0 <= j < |parts| && parts[j].key == "1"
    ensures DayValue(parts).part2.Some? <==> exists j :: 0 <= j < |parts| && parts[j].key != "1"
  {
    LastPartSpec(parts, true);
    LastPartSpec(parts, false);
  }

  /** Slot `k` stays empty when no entry's key has day number `k`. */
  lemma {:induction false} DaySlotUnlisted(days: seq<RawDay>, k: int)
    requires forall j :: 0 <= j < |days| ==> DayNumber(days[j].key) != k
    ensures DaySlot(days, k) == NoDay
    decreases |days|
  {
    if days != [] {
      var n := |days| - 1;
      assert forall j :: 0 <= j < n ==> days[..n][j] == days[j];
      DaySlotUnlisted(days[..n], k);
    }
  }

  /** Slot `k` holds the day of the last entry whose key has day number `k`. */
  lemma {:induction false} DaySlotLast(days: seq<RawDay>, j: nat, k: int)
    requires j < |days| && DayNumber(days[j].key) == k
    requires forall i :: j < i < |days| ==> DayNumber(days[i].key) != k
    ensures DaySlot(days, k) == DayValue(days[j].parts)
    decreases |days|
  {
    var n := |days| - 1;
    if j < n {
      var prefix := days[..n];
      assert prefix[j] == days[j];
      assert forall i :: j < i < n ==> prefix[i] == days[i];
      DaySlotLast(prefix, j, k);
    }
  }

  /**
   * Every member of a built board has 25 slots; slot `k - 1` holds the day of
   * the last entry keyed `k`, and a day no entry names stays empty.
   */
  lemma TableSlots(days: seq<RawDay>, k: int)
    requires 1 <= k <= NumDays
    ensures |TableOf(days)| == NumDays
    ensures (forall j :: 0 <= j < |days| ==> DayNumber(days[j].key) != k) ==> TableOf(days)[k - 1] == NoDay
    ensures forall j :: 0 <= j < |days| && DayNumber(days[j].key) == k &&
                        (forall i :: j < i < |days| ==> DayNumber(days[i].key) != k)
                        ==> TableOf(days)[k - 1] == DayValue(days[j].parts)
  {
    if forall j :: 0 <= j < |days| ==> DayNumber(days[j].key) != k {
      DaySlotUnlisted(days, k);
    }
    forall j | 0 <= j < |days| && DayNumber(days[j].key) == k &&
               (forall i :: j < i < |days| ==> DayNumber(days[i].key) != k)
      ensures TableOf(days)[k - 1] == DayValue(days[j].parts)
    {
      DaySlotLast(days, j, k);
    }
  }
}
