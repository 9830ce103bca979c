/**
 * The pure parts of ticket creation (database/queries.js): the ticket
 * number, the record `createTicket` inserts with its per-field defaults, and
 * the all-fields snapshot the stale-conversation sweep hands to it.
 */
module Tickets {
  import opened Wrappers
  import opened JsString
  import opened CollectedData

  // ------------------------------------------------------ ticket number

  /** The readings of `new Date()` a ticket number uses: local year, month index, day, epoch milliseconds. */
  datatype Instant = Instant(year: int, monthIndex: int, day: int, epochMillis: int)

  /** The ranges `Date` guarantees, with a four-digit year. */
  predicate IsFourDigitYearDate(at: Instant) {
    1000 <= at.year <= 9999 && 0 <= at.monthIndex <= 11 && 1 <= at.day <= 31
  }

  const TICKET_PREFIX := "TICK-"
  const SUFFIX_LENGTH := 6

  /** The pieces of a template literal joined in order. */
  function Concat(parts: seq<string>): string {
    if parts == [] then [] else Concat(parts[..|parts| - 1]) + parts[|parts| - 1]
  }

  /** The pieces of `generateTicketNumber()`'s template for a date and the timestamp's last digits. */
  function NumberParts(year: int, monthIndex: int, day: int, suffix: string): seq<string> {
    [TICKET_PREFIX, IntToString(year),
     PadStart(IntToString(monthIndex + 1), 2, '0'), PadStart(IntToString(day), 2, '0'),
     "-", suffix]
  }

  /** `generateTicketNumber()` at instant `at`. */
  function TicketNumber(at: Instant): string {
    Concat(NumberParts(at.year, at.monthIndex, at.day, SliceLast(IntToString(at.epochMillis), SUFFIX_LENGTH)))
  }

  /** Six pieces joined are their concatenation. */
  lemma ConcatSix(a: string, b: string, c: string, d: string, e: string, f: string)
    ensures Concat([a, b, c, d, e, f]) == a + b + c + d + e + f
  {
    assert Concat([a]) == a by { assert [a][..0] == []; }
    assert Concat([a, b]) == a + b by { assert [a, b][..1] == [a]; }
    assert Concat([a, b, c]) == a + b + c by { assert [a, b, c][..2] == [a, b]; }
    assert Concat([a, b, c, d]) == a + b + c + d by { assert [a, b, c, d][..3] == [a, b, c]; }
    assert Concat([a, b, c, d, e]) == a + b + c + d + e by { assert [a, b, c, d, e][..4] == [a, b, c, d]; }
    assert [a, b, c, d, e, f][..5] == [a, b, c, d, e];
  }

  /** A ticket number's template spelled out as one concatenation. */
  lemma {:induction false} TicketNumberJoined(year: int, monthIndex: int, day: int, suffix: string)
    ensures var p := NumberParts(year, monthIndex, day, suffix);
      Concat(p) == p[0] + p[1] + p[2] + p[3] + p[4] + p[5]
  {
    var p := NumberParts(year, monthIndex, day, suffix);
    ConcatSix(p[0], p[1], p[2], p[3], p[4], p[5]);
    assert p == [p[0], p[1], p[2], p[3], p[4], p[5]];
  }

  /** The last `k` decimal digits of `m`, zeros in front when `m` has fewer. */
  function FixedDigits(m: nat, k: nat): (s: string)
    ensures |s| == k && AllDigits(s)
  {
    if k == 0 then [] else FixedDigits(m / 10, k - 1) + [DigitChar(m % 10)]
  }

  /** Adding a multiple of 10^k does not change the last `k` digits. */
  lemma {:induction false} FixedDigitsPeriodic(m: nat, j: nat, k: nat)
    ensures FixedDigits(m + j * Pow10(k), k) == FixedDigits(m, k)
  {
    if k > 0 {
      var t := j * Pow10(k - 1);
      assert j * Pow10(k) == 10 * t by {
        assert Pow10(k) == 10 * Pow10(k - 1);
      }
      var n := m + 10 * t;
      assert n / 10 == m / 10 + t && n % 10 == m % 10;
      FixedDigitsPeriodic(m / 10, j, k - 1);
    }
  }

  /** Taking the last `k` characters after appending one is taking `k - 1` before it. */
  lemma {:induction false} SliceLastAppend(front: string, c: char, k: nat)
    requires 2 <= k <= |front| + 1
    ensures SliceLast(front + [c], k) == SliceLast(front, k - 1) + [c]
  {
    var s := front + [c];
    assert s[|s| - k..] == front[|front| - (k - 1)..] + [c];
  }

  /** `String(n).slice(-k)` of a number with at least `k` digits is its last `k` digits. */
  lemma {:induction false} LastDigits(n: nat, k: nat)
    requires 1 <= k <= |NatToString(n)|
    ensures SliceLast(NatToString(n), k) == FixedDigits(n, k)
  {
    var s := NatToString(n);
    var last := DigitChar(n % 10);
    assert FixedDigits(n, k) == FixedDigits(n / 10, k - 1) + [last];
    if k == 1 {
      assert SliceLast(s, 1) == [s[|s| - 1]];
    } else {
      var front := NatToString(n / 10);
      assert s == front + [last];
      SliceLastAppend(front, last, k);
      LastDigits(n / 10, k - 1);
    }
  }

  /** A month index or day written with two digits reads back as itself. */
  lemma {:induction false} TwoDigits(n: nat)
    requires n < 100
    ensures var p := PadStart(NatToString(n), 2, '0');
      |p| == 2 && AllDigits(p) && DigitsValue(p) == n
  {
    var p := PadStart(NatToString(n), 2, '0');
    if n < 10 {
      assert p == ['0', DigitChar(n)];
      assert p[..1] == ['0'] && DigitsValue(['0']) == 0;
    } else {
      assert NatToString(n / 10) == [DigitChar(n / 10)];
      assert p == [DigitChar(n / 10), DigitChar(n % 10)];
      assert p[..1] == [DigitChar(n / 10)] && DigitsValue(p[..1]) == n / 10;
    }
  }

  /** Where the parts of a ticket number sit, and what they read back as. */
  lemma {:induction false} NumberLayout(year: string, month: string, day: string, suffix: string)
    requires |year| == 4 && |month| == 2 && |day| == 2 && |suffix| == 6
    requires AllDigits(year) && AllDigits(month) && AllDigits(day)
    ensures var n := TICKET_PREFIX + year + month + day + "-" + suffix;
      |n| == 20 && n[..5] == TICKET_PREFIX && n[13] == '-' && AllDigits(n[5..13]) &&
      n[5..9] == year && n[9..11] == month && n[11..13] == day && n[14..] == suffix
  {
    var n := TICKET_PREFIX + year + month + day + "-" + suffix;
    assert n[5..13] == year + month + day;
    AllDigitsAppend(year, month);
    AllDigitsAppend(year + month, day);
  }

  /** A four-digit year is written with four digits that read back as the year. */
  lemma {:induction false} YearPart(year: int)
    requires 1000 <= year <= 9999
    ensures var p := IntToString(year); |p| == 4 && AllDigits(p) && DigitsValue(p) == year
  {
    assert Pow10(3) == 1000 && Pow10(4) == 10000;
    NatToStringLength(year, 4);
    DigitsValueOfNatToString(year);
  }

  /** A timestamp of at least six digits ends in its last six digits. */
  lemma {:induction false} SuffixPart(m: int)
    requires m >= 100000
    ensures SliceLast(IntToString(m), SUFFIX_LENGTH) == FixedDigits(m, SUFFIX_LENGTH)
  {
    NatToStringLongEnough(m, 5);
    LastDigits(m, SUFFIX_LENGTH);
  }

  /** A number built from a four-digit date and a six-character suffix has the twenty-character layout. */
  lemma {:induction false} PartsShape(year: int, monthIndex: int, day: int, suffix: string)
    requires 1000 <= year <= 9999 && 0 <= monthIndex <= 11 && 1 <= day <= 31 && |suffix| == 6
    ensures var n := Concat(NumberParts(year, monthIndex, day, suffix));
      |n| == 20 && n[..5] == TICKET_PREFIX && n[13] == '-' &&
      AllDigits(n[5..13]) &&
      DigitsValue(n[5..9]) == year &&
      DigitsValue(n[9..11]) == monthIndex + 1 &&
      DigitsValue(n[11..13]) == day &&
      n[14..] == suffix
  {
    var p := NumberParts(year, monthIndex, day, suffix);
    YearPart(year);
    TwoDigits(monthIndex + 1);
    TwoDigits(day);
    TicketNumberJoined(year, monthIndex, day, suffix);
    NumberLayout(p[1], p[2], p[3], suffix);
  }

  /**
   * For a four-digit year and a timestamp of at least six digits the number
   * has twenty characters: "TICK-", eight digits that read back as the date,
   * "-" and the last six digits of the timestamp.
   */
  lemma {:induction false} TicketNumberShape(at: Instant)
    requires IsFourDigitYearDate(at) && at.epochMillis >= 100000
    ensures var n := TicketNumber(at);
      |n| == 20 && n[..5] == TICKET_PREFIX && n[13] == '-' &&
      AllDigits(n[5..13]) &&
      DigitsValue(n[5..9]) == at.year &&
      DigitsValue(n[9..11]) == at.monthIndex + 1 &&
      DigitsValue(n[11..13]) == at.day &&
      n[14..] == FixedDigits(at.epochMillis, SUFFIX_LENGTH)
  {
    SuffixPart(at.epochMillis);
    PartsShape(at.year, at.monthIndex, at.day, SliceLast(IntToString(at.epochMillis), SUFFIX_LENGTH));
  }

  /**
   * The suffix does not make numbers unique: two instants of the same day
   * whose timestamps differ by a multiple of 10^6 ms (about 16.7 minutes)
   * get the same number.
   */
  lemma {:induction false} TicketNumbersCollide(a: Instant, b: Instant, laps: nat)
    requires a.year == b.year && a.monthIndex == b.monthIndex && a.day == b.day
    requires a.epochMillis >= 100000 && b.epochMillis == a.epochMillis + laps * 1000000
    ensures TicketNumber(a) == TicketNumber(b)
  {
    SuffixesCollide(a.epochMillis, laps);
    SameDateSameSuffix(a, b);
  }

  /** The number depends only on the date and the last six digits of the timestamp. */
  lemma SameDateSameSuffix(a: Instant, b: Instant)
    requires a.year == b.year && a.monthIndex == b.monthIndex && a.day == b.day
    requires SliceLast(IntToString(a.epochMillis), SUFFIX_LENGTH) == SliceLast(IntToString(b.epochMillis), SUFFIX_LENGTH)
    ensures TicketNumber(a) == TicketNumber(b)
  {
  }

  /** The six-digit suffix repeats every 10^6 ms. */
  lemma {:induction false} SuffixesCollide(m: nat, laps: nat)
    requires m >= 100000
    ensures SliceLast(IntToString(m + laps * 1000000), SUFFIX_LENGTH) == SliceLast(IntToString(m), SUFFIX_LENGTH)
  {
    var later := m + laps * 1000000;
    NatToStringLongEnough(m, 5);
    NatToStringLongEnough(later, 5);
    LastDigits(m, SUFFIX_LENGTH);
    LastDigits(later, SUFFIX_LENGTH);
    assert Pow10(6) == 1000000;
    FixedDigitsPeriodic(m, laps, SUFFIX_LENGTH);
  }

  // ------------------------------------------------------ ticket record

  /** A row of `support_tickets` as `createTicket` inserts it. */
  datatype Ticket = Ticket(
    userConversationId: Option<nat>,
    userId: string,
    ticketNumber: string,
    userName: string,
    userSector: string,
    costCenter: string,
    phone: string,
    email: string,
    equipmentPatrimony: string,
    problemType: string,
    problemDescription: string,
    status: string)

  /** The ticket column that holds an answer slot. */
  function TicketField(t: Ticket, f: Field): string {
    match f
    case Name => t.userName
    case Sector => t.userSector
    case CostCenter => t.costCenter
    case Phone => t.phone
    case Email => t.email
    case Patrimony => t.equipmentPatrimony
    case ProblemType => t.problemType
    case ProblemDescription => t.problemDescription
  }

  const NOT_INFORMED := "Não informado"
  const INCOMPLETE := "inconcluído"

  /** What `createTicket` stores for a falsy field: "" for contact details, "Não informado" otherwise. */
  function CreateDefault(f: Field): string {
    if f == Patrimony || f == ProblemType || f == ProblemDescription then NOT_INFORMED else ""
  }

  /**
   * The row `createTicket(userId, userData)` inserts: each answer column
   * holds the supplied value when it is truthy and `CreateDefault` otherwise;
   * `status` is copied.
   */
  function NewTicket(conversationId: Option<nat>, userId: string, ticketNumber: string,
                     userData: Data, status: string): (t: Ticket)
    ensures t.userConversationId == conversationId && t.userId == userId
    ensures t.ticketNumber == ticketNumber && t.status == status
    ensures forall f {:trigger TicketField(t, f)} :: Given(userData, f) ==> TicketField(t, f) == userData[f]
    ensures forall f {:trigger TicketField(t, f)} :: !Given(userData, f) ==> TicketField(t, f) == CreateDefault(f)
  {
    Ticket(conversationId, userId, ticketNumber,
      OrElse(userData, Name, CreateDefault(Name)),
      OrElse(userData, Sector, CreateDefault(Sector)),
      OrElse(userData, CostCenter, CreateDefault(CostCenter)),
      OrElse(userData, Phone, CreateDefault(Phone)),
      OrElse(userData, Email, CreateDefault(Email)),
      OrElse(userData, Patrimony, CreateDefault(Patrimony)),
      OrElse(userData, ProblemType, CreateDefault(ProblemType)),
      OrElse(userData, ProblemDescription, CreateDefault(ProblemDescription)),
      status)
  }

  /**
   * The object the sweep builds from a conversation's answers: all eight
   * slots set and non-empty, each the collected value or "Não informado".
   */
  function IncompleteSnapshot(collected: Data): (d: Data)
    ensures forall f :: Given(d, f)
    ensures forall f :: Given(collected, f) ==> f in d && d[f] == collected[f]
    ensures forall f :: !Given(collected, f) ==> f in d && d[f] == NOT_INFORMED
  {
    var d := map[
      Name := OrElse(collected, Name, NOT_INFORMED),
      Sector := OrElse(collected, Sector, NOT_INFORMED),
      CostCenter := OrElse(collected, CostCenter, NOT_INFORMED),
      Phone := OrElse(collected, Phone, NOT_INFORMED),
      Email := OrElse(collected, Email, NOT_INFORMED),
      Patrimony := OrElse(collected, Patrimony, NOT_INFORMED),
      ProblemType := OrElse(collected, ProblemType, NOT_INFORMED),
      ProblemDescription := OrElse(collected, ProblemDescription, NOT_INFORMED)];
    assert forall f :: f in d && d[f] == OrElse(collected, f, NOT_INFORMED) by {
      forall f ensures f in d && d[f] == OrElse(collected, f, NOT_INFORMED) {
        assert f.Name? || f.Sector? || f.CostCenter? || f.Phone? || f.Email? ||
          f.Patrimony? || f.ProblemType? || f.ProblemDescription?;
      }
    }
    d
  }

  /** The ticket the sweep creates for a conversation with answers `collected`. */
  function IncompleteTicket(conversationId: Option<nat>, userId: string, at: Instant, collected: Data): Ticket {
    NewTicket(conversationId, userId, TicketNumber(at), IncompleteSnapshot(collected), INCOMPLETE)
  }

  /**
   * In a swept ticket every answer column is the collected value or
   * "Não informado": `createTicket`'s own "" defaults never apply.
   */
  lemma IncompleteTicketFields(conversationId: Option<nat>, userId: string, at: Instant, collected: Data)
    ensures var t := IncompleteTicket(conversationId, userId, at, collected);
      t.status == INCOMPLETE && t.ticketNumber == TicketNumber(at) &&
      forall f :: TicketField(t, f) == OrElse(collected, f, NOT_INFORMED)
  {
    var snapshot := IncompleteSnapshot(collected);
    forall f ensures Given(snapshot, f) {
    }
  }

  /** A conversation that only collected a name yields a ticket with that name and "Não informado" elsewhere. */
  lemma NameOnlyTicket(conversationId: Option<nat>, userId: string, at: Instant)
    ensures var t := IncompleteTicket(conversationId, userId, at, map[Name := "Ana"]);
      t.userName == "Ana" && t.status == INCOMPLETE &&
      forall f :: f != Name ==> TicketField(t, f) == NOT_INFORMED
  {
    IncompleteTicketFields(conversationId, userId, at, map[Name := "Ana"]);
  }
}
