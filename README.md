# Advent of Code leaderboard scanner — the snapshot diff, in Dafny

The scanner polls a private Advent of Code leaderboard. It keeps the previous
response and compares it with the new one. For every change it posts a
notification to a chat webhook:

- a welcome for a member whose ID it has not seen before;
- for a known member, one message per newly completed part of a day. Each
  message carries the member's displayed rank for that part, the rank's English
  ordinal suffix ("1st", "12th", "22nd") and the member's star total with its
  plural suffix.

This project models that snapshot-diff engine of `main.go` and proves what it
promises. The model has six parts.

- **The completion table** (`Parser`). The table-filling part of
  `buildLeaderboard` gives each member a 25-slot table.
  - The input is the already-decoded document, with every keyed object given
    as its entries in document order.
  - Day key `k` fills slot `k - 1`. It is read with `strconv.Atoi`, whose
    error is ignored, so an unreadable key counts as day 0.
  - Part key `"1"` fills Part 1. Any other part key fills Part 2. Later entries
    overwrite earlier ones.
  - The slice is an `array` that `FillTable` allocates and overwrites in place.
- **The diff loop** inside `refresh` (`Differ.Diff`, `Differ.DiffDays`,
  `Differ.DiffDay`), proved equal to the specification function
  `DiffEvents`. The webhook is modelled as the sequence of events sent, in
  order.
  - For each current member, in board order, it looks the ID up in the cached
    board with `arrayFind`.
  - An unknown ID gets one `NewChallenger` event and nothing else.
  - For a known ID it walks the 25 days in order. It reports Part 1 and then
    Part 2 when the part is recorded now and was not recorded in the cached
    entry.
  - The specification separates *which* parts are reported
    (`NoticesUpTo`, a list of `Notice`s) from the message built for each
    one (`CompletedEvent`, the closure `s`).
- **The first run and the build errors** (`Differ.Refresh`). With no cached
  body nothing is sent. If either body fails to build, nothing is sent either.
- **The star total** (`Stars`). `getTotalStars` counts every Part 1 and Part 2
  record. A Part 1 message leaves that day's Part 2 record out of the count,
  even when it was already there.
- **The rank** (`Ranking`). `getCompletionRank` counts the *other* members
  whose record for the same day and part has a strictly earlier timestamp.
  The displayed rank is that count plus one.
  - The source reads the subject's Part 1 timestamp before it looks at the
    part number, so Part 1 must exist even for a Part 2 query.
  - The only rank query with a Part 2 part number is the one for a known
    member whose Part 2 of that day is newly reported. The diff therefore
    requires Part 1 on exactly those days (`NewPart2HasPart1`,
    `RanksReadable`). Part-2-only days of unknown members, of other members
    and in the cached entry are allowed, as in the source.
- **The suffixes** (`Ordinal`, `Stars.Plural`). `getOrdinal` looks the suffix
  up in the table `th, st, nd, rd`. Go's `%` truncates toward zero, and that
  is modelled explicitly (`GoRem`).

Modules:

- `Wrappers`: `Option` and `Result`.
- `Snapshot`: the data model.
- `Counting`: a generic predicate count with permutation and monotonicity
  lemmas.
- `Search`: `arrayFind` and `arrayContains`.
- `Stars`, `Ranking`, `Ordinal`: the three helpers the notification uses.
- `Parser`: building the table.
- `Differ`: the diff and one poll cycle.

## Model

| member | source | states |
|---|---|---|
| Search.FindSpec | main.go:394-402 | the search finds nothing exactly when no element satisfies the predicate, and otherwise returns the element at the first index that does |
| Search.ArrayFind | main.go:394-402 | the early-return scan returns exactly the first match, or none when there is no match |
| Search.ArrayContains | main.go:384-392 | true if and only if some element satisfies the predicate, which is exactly when the search finds one |
| Ordinal.GoRem | main.go:282 | Go's `%` by its definition: the dividend is some integer multiple of the divisor plus the remainder, the remainder is smaller than the divisor in magnitude, and it is zero or carries the dividend's sign; these three facts fix it uniquely |
| Ordinal.GetOrdinal | main.go:281-290 | the suffix is always one of the four table entries; callers must avoid a negative remainder, which would index the table out of range |
| Ordinal.OrdinalIsEnglish | main.go:281-290 | for every n >= 0 the table lookup follows the English rule: "th" for 11..13 mod 100, otherwise "st"/"nd"/"rd" for last digit 1/2/3, otherwise "th" |
| Ordinal.OrdinalExamples | main.go:281-290 | 1st, 2nd, 3rd, 4th, 11th, 12th, 13th, 21st, 101st, 112th, 122nd |
| Stars.GetTotalStars | main.go:239-251 | the counting loop returns the member's star total with the given day's Part 2 skipped |
| Stars.StarCountSplit | main.go:239-251 | the star total is the number of Part 1 records plus the number of Part 2 records, less one exactly when the skipped day index is in range and has Part 2 |
| Stars.TotalStarsBounds | main.go:239-251 | with nothing skipped the total is the Part 1 count plus the Part 2 count, and at most two per day |
| Stars.SkipLowersByOne | main.go:245 | skipping a day lowers the total by one when that day has Part 2, and leaves it unchanged otherwise |
| Stars.Plural | main.go:186-189 | the suffix is empty exactly for a total of one star, and "s" otherwise |
| Ranking.GetCompletionRank | main.go:253-279 | the loop returns the number of other members whose record for that day and part is strictly earlier than the subject's; it needs the subject's Part 1, which the source dereferences unconditionally |
| Ranking.RankBounds | main.go:192 | for a member on the board, the displayed rank lies between 1 and the number of members, because the member never counts itself |
| Ranking.RankPermutation | main.go:259-278 | reordering the board's members does not change the rank |
| Ranking.RankOrdersByTime | main.go:273-275 | with unique IDs, a strictly earlier completion gets a strictly smaller rank |
| Ranking.RankTies | main.go:273 | with unique IDs, members who finished at the same second get the same rank, because ties are not counted |
| Parser.DecimalRoundTrip | main.go:354 | `Atoi` reads a decimal day key back as its number, with or without a leading '+', and a '-' key as its negation |
| Parser.BuildDay | main.go:340-352 | a slot's Part 1 is the record of the last entry keyed "1" and its Part 2 the record of the last entry with any other key |
| Parser.FillTable | main.go:337-356 | succeeds exactly when every day key names a slot 1..25; the filled array is then the specified 25-slot table, otherwise the error names the first bad key |
| Parser.BuildLeaderboard | main.go:321-362 | the board keeps the document's members in order, each with its own table, or reports the first bad day key in document order |
| Parser.FirstBadDayNone | main.go:354-355 | the table cannot be built exactly when one of the member's day keys names no slot |
| Parser.TableSnoc | main.go:355 | one more day entry with a valid key overwrites exactly the slot it names and leaves the other 24 alone |
| Parser.LastPartSpec | main.go:344-351 | a part is absent exactly when no entry selects it; otherwise it holds the record of the last entry that selects it |
| Parser.PartKeys | main.go:347-351 | a slot has Part 1 exactly when some entry is keyed "1", and Part 2 exactly when some entry has another key |
| Parser.DaySlotUnlisted | main.go:337 | a day that no entry names keeps an empty slot |
| Parser.DaySlotLast | main.go:354-355 | a slot holds the day of the last entry whose key names it |
| Parser.TableSlots | main.go:337-355 | a built table has 25 slots; slot `k - 1` holds the last entry keyed `k`, and is empty when no entry names day `k` |
| Differ.Notify | main.go:178-211 | the closure builds the message of the notice: the member, the 1-based day, the part, the record's timestamp, the rank with its ordinal, and the star total with its plural |
| Differ.DiffDay | main.go:214-219 | one day sends the Part 1 message, then the Part 2 message, each only when that part is new |
| Differ.DiffDays | main.go:177-220 | the day loop sends, in order, the messages for every new part of the member |
| Differ.Diff | main.go:165-221 | the member loop sends exactly the specified events: a welcome for each unknown ID, otherwise the messages for the new parts, member by member |
| Differ.BuildFromBody | main.go:154-163 | building from a body yields the board the document denotes, and an error for a body that does not decode |
| Differ.Refresh | main.go:150-163 | a first run (no cached body) sends nothing; if either body fails to build nothing is sent; otherwise the diff of the two boards is sent |
| Differ.InNotices | main.go:214-219 | a known member's notices are exactly the parts recorded now and not in the cached entry, each with its current record |
| Differ.InDayNotices | main.go:214-219 | one day's notices are exactly its parts that are recorded now and not in the cached entry |
| Differ.NoticesIncreasing | main.go:177-219 | the notices come in increasing day order, Part 1 before Part 2, with no (day, part) twice |
| Differ.NothingNewAgainstSelf | main.go:214-219 | comparing a member with itself finds nothing new |
| Differ.CompletedEventHeader | main.go:194-206 | a completion message names its member, the 1-based day, the part and the record's timestamp |
| Differ.EventsOrdered | main.go:177-219 | each member's events come in increasing (day, part) order, never twice for the same part |
| Differ.MembersInOrder | main.go:165 | all events of the first `j` current members precede those of the others |
| Differ.InDiffEvents | main.go:165-221 | the diff sends exactly the events of its current members |
| Differ.CompletedIff | main.go:214-219 | a completion for a member, day and part is sent if and only if the member's ID was on the cached board and that part is recorded now but was not in the cached entry |
| Differ.SentOnlyIfNew | main.go:214-219 | a completion that was sent is known and new (the "only if" half) |
| Differ.NewChallengerIff | main.go:166-175 | a member is welcomed if and only if no member of the cached board has its ID |
| Differ.UnknownMemberEvents | main.go:167-175 | an unknown member gets exactly one welcome and no completion, however many parts it already has |
| Differ.DiffIdempotent | main.go:214-219 | diffing a board with unique IDs against itself sends nothing |
| Differ.EventPayload | main.go:181-193 | every completion sent for a member carries: its record's timestamp; a star total that leaves out that day's Part 2 on a Part 1 message and counts everything on a Part 2 message; a rank of 1 + the number strictly ahead, between 1 and the board size; the English ordinal; and "star" exactly for one star |
| Differ.CompletedEventPayload | main.go:181-193 | the message built for any recorded part of a member on the board carries that payload |

## Left out

- JSON decoding (goccy/go-json and fastjson). It is library code. The model
  starts from the decoded document: each keyed object is a sequence of entries
  in document order, the order in which `Visit` walks them. The errors of the
  per-member and per-part `Unmarshal` calls are ignored in the source too. A
  body that does not decode is the single error `Undecodable`.
- A day key that names no slot 1..25 (an unreadable key reads as day 0). The
  source indexes the slice out of range and the process panics. The model
  reports `BadDayKey` with the first such key instead, and the cycle sends
  nothing.
- A known member whose newly reported Part 2 of a day has no Part 1 record.
  The source then calls `getCompletionRank` with part 2, reads the missing
  Part 1 record and panics. `Differ.Diff`, `Differ.DiffDays`, `Differ.DiffDay`
  and `Differ.Refresh` require exactly that this does not happen
  (`RanksReadable`). The service never records Part 2 without Part 1.
- Ordinal.GetOrdinal: requires a non-negative remainder by 100, because Go's
  `getOrdinal` indexes the table with a negative remainder and panics for a
  negative number whose remainder is not 0. The diff only asks for ranks of 1
  or more, so the excluded inputs never occur there.
- The HTTP download, the webhook POST and its errors. A failed send is only
  logged and the loop goes on, so the model appends every event.
- The cache file, the 14-minute throttle and the storing of the new body as
  the next cached body. These are file I/O and wall-clock time.
- Flags, environment, cron scheduling and signal handling. These are process
  setup and lifecycle.
- The completion time's formatting in the America/Chicago time zone. The
  event carries the raw timestamp.
- The message text beyond its fields. An event carries what the message
  shows.
- Integer widths. Go's `int` and `int64` are 64 bits wide. Star totals are at
  most 50 and ranks at most the board size, so nothing here can wrap. The
  model uses unbounded integers. A day key outside the 64-bit range makes
  `strconv.Atoi` fail with a clamped value, where `Atoi` here returns the
  unbounded number; either way the key names no slot, so the outcome is the
  same.
- The member's scalar fields (score, star count, last star time). They are
  copied onto the member but play no part in the diff.
