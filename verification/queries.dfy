/**
 * The conversation store of database/queries.js over an in-memory model of
 * its tables: `user_conversations` as a map keyed by `user_id` (the column
 * is unique, which is what the upsert relies on), `support_tickets` and
 * `message_logs` as append-only sequences. Clock readings (`NOW()`, `new
 * Date()`) are parameters, and the failure of a database call inside the
 * sweep is an explicit `Fault` parameter.
 */
module Queries {
  import opened Wrappers
  import opened CollectedData
  import opened Tickets

  /** The store's status for a conversation in progress. */
  const OPEN := "aberto"
  /** The store's reset state; the dialogue's own initial state is spelled "initial". */
  const STORE_INITIAL := "inicial"
  /** `INTERVAL 5 MINUTE`, in seconds, the unit of `updated_at`. */
  const STALE_AFTER_SECONDS := 5 * 60

  /** The `collected_data` column as the driver hands it back. */
  datatype CollectedColumn =
    | NoData                          // NULL or '': falsy
    | JsonText(parsed: Option<Data>)  // a non-empty string and what JSON.parse makes of it (None: it throws)
    | DriverObject(value: Data)       // a JSON column the driver has already parsed into an object

  /** A row of `user_conversations`. */
  datatype Row = Row(id: nat, currentState: string, collectedData: CollectedColumn, status: string, updatedAt: int)

  /** What `getUserConversation` returns for an existing row. */
  datatype ConversationView = ConversationView(id: nat, state: string, data: Data, status: string)

  /** A row of `message_logs`. */
  datatype LogEntry = LogEntry(
    userConversationId: Option<nat>, userId: string, messageText: string, messageType: string, userState: string)

  /** A database call that throws. */
  datatype DbError = DbError

  /** Which database call of a sweep throws, if any; rows are counted from 0 in processing order. */
  datatype Fault = NoFault | ScanFails | TicketFails(row: nat) | ResetFails(row: nat)

  /** Whether a sweep over `selected` rows meets its fault before finishing. */
  predicate Aborts(fault: Fault, selected: nat) {
    match fault
    case NoFault => false
    case ScanFails => true
    case TicketFails(k) => k < selected
    case ResetFails(k) => k < selected
  }

  /**
   * How many of the `selected` rows a sweep resets: those before the row
   * whose call throws, all of them when none does, none when the scan throws.
   */
  function ResetCount(fault: Fault, selected: nat): (r: nat)
    ensures r <= selected
    ensures fault != ScanFails ==> (r == selected <==> !Aborts(fault, selected))
    ensures fault == ScanFails ==> r == 0
    ensures fault != ScanFails && Aborts(fault, selected) ==> r == fault.row
  {
    match fault
    case NoFault => selected
    case ScanFails => 0
    case TicketFails(k) => if k < selected then k else selected
    case ResetFails(k) => if k < selected then k else selected
  }

  /** How many rows get a ticket: the reset ones, and the row whose reset throws. */
  function Ticketed(fault: Fault, selected: nat): (t: nat)
    ensures ResetCount(fault, selected) <= t <= selected
    ensures t == ResetCount(fault, selected) + 1 <==> fault.ResetFails? && fault.row < selected
    ensures !(fault.ResetFails? && fault.row < selected) ==> t == ResetCount(fault, selected)
  {
    if fault.ResetFails? && fault.row < selected then fault.row + 1 else ResetCount(fault, selected)
  }

  // ------------------------------------------------------- reading rows

  /** `getUserConversation`'s reading of the column: the parsed or driver object, {} when falsy or unparsable. */
  function StoredAnswers(c: CollectedColumn): Data {
    match c
    case NoData => map[]
    case JsonText(parsed) => if parsed.Some? then parsed.value else map[]
    case DriverObject(value) => value
  }

  /**
   * The sweep's reading: it calls JSON.parse on every truthy value, which
   * throws on an object the driver already parsed, and the catch leaves {}.
   */
  function SweptAnswers(c: CollectedColumn): Data {
    match c
    case JsonText(parsed) => if parsed.Some? then parsed.value else map[]
    case _ => map[]
  }

  /** The two readers agree on text columns and disagree on driver-parsed objects. */
  lemma ReadersOfCollectedData(c: CollectedColumn, d: Data)
    ensures c.JsonText? || c.NoData? ==> SweptAnswers(c) == StoredAnswers(c)
    ensures StoredAnswers(DriverObject(d)) == d && SweptAnswers(DriverObject(d)) == map[]
  {
  }

  /** `getUserConversation`'s result object for a row. */
  function ViewOf(row: Row): ConversationView {
    ConversationView(row.id, row.currentState, StoredAnswers(row.collectedData), row.status)
  }

  /** `SELECT id FROM user_conversations WHERE user_id = ?`: the row id, or null. */
  function ConversationIdOf(rows: map<string, Row>, userId: string): (r: Option<nat>)
    ensures r.Some? <==> userId in rows
    ensures r.Some? ==> r.value == rows[userId].id
  {
    if userId in rows then Some(rows[userId].id) else None
  }

  /**
   * With distinct row ids the id a log entry or ticket is linked to names
   * one user: two users share a link only when both have none.
   */
  lemma ConversationIdLinksOneRow(rows: map<string, Row>, u: string, v: string)
    requires forall x, y :: x in rows && y in rows && x != y ==> rows[x].id != rows[y].id
    ensures ConversationIdOf(rows, u) == ConversationIdOf(rows, v) ==> u == v || (u !in rows && v !in rows)
  {
  }

  // ------------------------------------------------------- writing rows

  /**
   * `resetUserConversation`'s update of one row: state 'inicial', answers
   * '{}', status 'aberto'; the id and `updated_at` are kept.
   */
  function ResetRow(row: Row): (r: Row)
    ensures r.id == row.id && r.updatedAt == row.updatedAt
    ensures ViewOf(r) == ConversationView(row.id, STORE_INITIAL, map[], OPEN)
  {
    row.(currentState := STORE_INITIAL, collectedData := JsonText(Some(map[])), status := OPEN)
  }

  /** The sweep's filter: open, not in the reset state, untouched for more than five minutes. */
  predicate IsStale(row: Row, now: int) {
    row.status == OPEN && row.currentState != STORE_INITIAL && row.updatedAt < now - STALE_AFTER_SECONDS
  }

  /** The users whose rows the sweep selects at time `now`. */
  function StaleUsers(rows: map<string, Row>, now: int): (r: set<string>)
    ensures r <= rows.Keys
  {
    set u | u in rows && IsStale(rows[u], now)
  }

  /** A reset row is never selected again, whatever the time. */
  lemma ResetRowIsNotStale(row: Row, now: int)
    ensures !IsStale(ResetRow(row), now)
  {
  }

  /** Resetting some rows removes exactly those from the selection and keeps every other. */
  lemma StaleAfterResets(before: map<string, Row>, after: map<string, Row>, reset: seq<string>, now: int)
    requires after.Keys == before.Keys
    requires forall u :: u in after ==> after[u] == if u in reset then ResetRow(before[u]) else before[u]
    ensures StaleUsers(after, now) == StaleUsers(before, now) - set u | u in reset
  {
  }

  /** The ticket the sweep creates for `userId`'s row with the instant `at` of that call. */
  function SweepTicket(rows: map<string, Row>, userId: string, at: Instant): Ticket
    requires userId in rows
  {
    IncompleteTicket(Some(rows[userId].id), userId, at, SweptAnswers(rows[userId].collectedData))
  }

  /** The tickets a sweep creates for the rows of `order`, the i-th with clock reading `clock(i)`. */
  function SweepTickets(rows: map<string, Row>, order: seq<string>, clock: nat -> Instant): (r: seq<Ticket>)
    requires forall u :: u in order ==> u in rows
    ensures |r| == |order|
  {
    if order == [] then []
    else SweepTickets(rows, order[..|order| - 1], clock) + [SweepTicket(rows, order[|order| - 1], clock(|order| - 1))]
  }

  /** The i-th swept ticket belongs to the i-th row handled and carries the i-th clock reading. */
  lemma {:induction false} SweepTicketsAt(rows: map<string, Row>, order: seq<string>, clock: nat -> Instant, i: nat)
    requires forall u :: u in order ==> u in rows
    requires i < |order|
    ensures SweepTickets(rows, order, clock)[i] == SweepTicket(rows, order[i], clock(i))
    decreases |order|
  {
    var prefix := order[..|order| - 1];
    if i < |order| - 1 {
      SweepTicketsAt(rows, prefix, clock, i);
      assert order[i] == prefix[i];
    }
  }

  /** Handling one more row appends that row's ticket. */
  lemma SweepTicketsSnoc(rows: map<string, Row>, order: seq<string>, u: string, clock: nat -> Instant)
    requires forall v :: v in order ==> v in rows
    requires u in rows
    ensures SweepTickets(rows, order + [u], clock) == SweepTickets(rows, order, clock) + [SweepTicket(rows, u, clock(|order|))]
  {
    assert (order + [u])[..|order|] == order;
  }

  /** Appending to a table that was extended is extending it by more. */
  lemma AppendAssociates<T>(a: seq<T>, b: seq<T>, c: seq<T>)
    ensures (a + b) + c == a + (b + c)
  {
  }

  /** A prefix one longer is the prefix and the next element. */
  lemma PrefixGrows<T>(s: seq<T>, i: nat)
    requires i < |s|
    ensures s[..i + 1] == s[..i] + [s[i]]
  {
  }

  /** The rows after `resetUserConversation` has run for each user of `done` in turn. */
  function ResetAll(rows: map<string, Row>, done: seq<string>): (r: map<string, Row>)
    ensures r.Keys == rows.Keys
  {
    if done == [] then rows
    else
      var before := ResetAll(rows, done[..|done| - 1]);
      var u := done[|done| - 1];
      if u in before then before[u := ResetRow(before[u])] else before
  }

  /** Resetting the users of `done` resets exactly their rows, however often each appears. */
  lemma {:induction false} ResetAllAt(rows: map<string, Row>, done: seq<string>, u: string)
    requires u in rows
    ensures ResetAll(rows, done)[u] == if u in done then ResetRow(rows[u]) else rows[u]
    decreases |done|
  {
    if done != [] {
      var prefix := done[..|done| - 1];
      ResetAllAt(rows, prefix, u);
      assert done == prefix + [done[|done| - 1]];
    }
  }

  /** The same, for every row at once. */
  lemma ResetAllRows(rows: map<string, Row>, done: seq<string>)
    ensures forall u :: u in rows ==> ResetAll(rows, done)[u] == if u in done then ResetRow(rows[u]) else rows[u]
  {
    forall u | u in rows
      ensures ResetAll(rows, done)[u] == if u in done then ResetRow(rows[u]) else rows[u]
    {
      ResetAllAt(rows, done, u);
    }
  }

  /** Resetting one more user is one more `resetUserConversation`. */
  lemma ResetAllSnoc(rows: map<string, Row>, done: seq<string>, u: string)
    requires u in rows
    ensures var before := ResetAll(rows, done); ResetAll(rows, done + [u]) == before[u := ResetRow(before[u])]
  {
    assert (done + [u])[..|done|] == done;
  }

  /** The ticket `createTicket` makes from a row's swept answers is that row's sweep ticket. */
  lemma CreatedIsSweepTicket(rows: map<string, Row>, current: map<string, Row>, u: string, at: Instant)
    requires u in rows && u in current && current[u] == rows[u]
    ensures NewTicket(ConversationIdOf(current, u), u, TicketNumber(at),
                      IncompleteSnapshot(SweptAnswers(current[u].collectedData)), INCOMPLETE)
         == SweepTicket(rows, u, at)
  {
  }

  // -------------------------------------------------------------- store

  class Store {
    var conversations: map<string, Row>
    var tickets: seq<Ticket>
    var messageLogs: seq<LogEntry>
    /** A counter above every row id; a fresh row takes it as its id. */
    var nextConversationId: nat

    /** Row ids are positive, distinct and below the id counter. */
    ghost predicate Valid()
      reads this
    {
      1 <= nextConversationId &&
      (forall u :: u in conversations ==> 1 <= conversations[u].id < nextConversationId) &&
      (forall u, v :: u in conversations && v in conversations && u != v ==>
         conversations[u].id != conversations[v].id)
    }

    constructor ()
      ensures Valid()
      ensures conversations == map[] && tickets == [] && messageLogs == []
    {
      conversations, tickets, messageLogs := map[], [], [];
      nextConversationId := 1;
    }

    /**
     * `getUserConversation`: null when the user has no row, otherwise the
     * row's id, state and status with its answers read back (parsed text, a
     * driver object, or {} when empty or unparsable).
     */
    method GetUserConversation(userId: string) returns (r: Option<ConversationView>)
      ensures r.None? <==> userId !in conversations
      ensures r.Some? ==>
        var row := conversations[userId];
        r.value.id == row.id && r.value.state == row.currentState && r.value.status == row.status &&
        r.value.data == StoredAnswers(row.collectedData)
    {
      if userId !in conversations {
        return None;
      }
      var user := conversations[userId];
      var userData: Data := map[];
      match user.collectedData {
        case NoData =>
        case JsonText(parsed) =>
          if parsed.Some? {
            userData := parsed.value;
          }
        case DriverObject(value) =>
          userData := value;
      }
      r := Some(ConversationView(user.id, user.currentState, userData, user.status));
    }

    /**
     * `updateUserConversation`: insert the user's row, or overwrite the state,
     * answers (as JSON text) and status (default 'aberto') of the existing
     * one, stamping `updated_at` with `now`. One row per user; what is
     * written reads back unchanged. An insert returns the new row's id.
     */
    method UpdateUserConversation(userId: string, state: string, data: Data, status: Option<string>, now: int)
      returns (insertId: nat)
      requires Valid()
      modifies this
      ensures Valid()
      ensures var id := if userId in old(conversations) then old(conversations)[userId].id else old(nextConversationId);
        var written := if status.Some? then status.value else OPEN;
        conversations == old(conversations)[userId := Row(id, state, JsonText(Some(data)), written, now)] &&
        ViewOf(conversations[userId]) == ConversationView(id, state, data, written)
      ensures userId !in old(conversations) ==> insertId == old(nextConversationId)
      ensures tickets == old(tickets) && messageLogs == old(messageLogs)
    {
      var written := if status.Some? then status.value else OPEN;
      if userId in conversations {
        var row := conversations[userId];
        conversations := conversations[userId := Row(row.id, state, JsonText(Some(data)), written, now)];
        insertId := row.id;
      } else {
        insertId := nextConversationId;
        conversations := conversations[userId := Row(nextConversationId, state, JsonText(Some(data)), written, now)];
        nextConversationId := nextConversationId + 1;
      }
    }

    /**
     * `resetUserConversation`: the user's row, if any, goes back to state
     * 'inicial', answers {} and status 'aberto'; its `updated_at` and every
     * other row are untouched. Returns the number of rows matched.
     */
    method ResetUserConversation(userId: string) returns (affectedRows: nat)
      requires Valid()
      modifies this
      ensures Valid()
      ensures affectedRows == if userId in old(conversations) then 1 else 0
      ensures conversations ==
        if userId in old(conversations) then old(conversations)[userId := ResetRow(old(conversations)[userId])]
        else old(conversations)
      ensures tickets == old(tickets) && messageLogs == old(messageLogs)
      ensures nextConversationId == old(nextConversationId)
    {
      if userId in conversations {
        conversations := conversations[userId := ResetRow(conversations[userId])];
        affectedRows := 1;
      } else {
        affectedRows := 0;
      }
    }

    /**
     * `saveMessage`: append one log entry, linked to the user's row id when
     * the user has a row and to null otherwise. Returns the entry's id.
     */
    method SaveMessage(userId: string, messageText: string, messageType: string, userState: string)
      returns (id: nat)
      modifies this
      ensures messageLogs == old(messageLogs) +
        [LogEntry(ConversationIdOf(conversations, userId), userId, messageText, messageType, userState)]
      ensures id == |messageLogs|
      ensures conversations == old(conversations) && tickets == old(tickets)
      ensures nextConversationId == old(nextConversationId)
    {
      var userConversationId := ConversationIdOf(conversations, userId);
      messageLogs := messageLogs + [LogEntry(userConversationId, userId, messageText, messageType, userState)];
      id := |messageLogs|;
    }

    /**
     * `createTicket`: append exactly one ticket, numbered from the instant
     * `at`, linked to the user's row id (or null), with `userData`'s fields
     * defaulted as `NewTicket` says and `userData.status` as `status`.
     * Returns the ticket's id and number.
     */
    method CreateTicket(userId: string, userData: Data, status: string, at: Instant)
      returns (ticketId: nat, ticketNumber: string)
      modifies this
      ensures ticketNumber == TicketNumber(at)
      ensures tickets == old(tickets) +
        [NewTicket(ConversationIdOf(conversations, userId), userId, ticketNumber, userData, status)]
      ensures ticketId == |tickets|
      ensures conversations == old(conversations) && messageLogs == old(messageLogs)
      ensures nextConversationId == old(nextConversationId)
    {
      var userConversationId := ConversationIdOf(conversations, userId);
      ticketNumber := TicketNumber(at);
      tickets := tickets + [NewTicket(userConversationId, userId, ticketNumber, userData, status)];
      ticketId := |tickets|;
    }

    /**
     * The sweep's SELECT: every stale row exactly once, in an order the query
     * leaves unspecified (modelled by an arbitrary choice at each step).
     */
    method SelectStale(now: int) returns (order: seq<string>)
      ensures forall i, j :: 0 <= i < j < |order| ==> order[i] != order[j]
      ensures forall u :: u in order <==> u in StaleUsers(conversations, now)
      ensures |order| == |StaleUsers(conversations, now)|
    {
      var selected := StaleUsers(conversations, now);
      var remaining := selected;
      order := [];
      while remaining != {}
        invariant remaining <= selected
        invariant forall u :: u in order <==> u in selected && u !in remaining
        invariant forall i, j :: 0 <= i < j < |order| ==> order[i] != order[j]
        invariant |order| + |remaining| == |selected|
        decreases |remaining|
      {
        var u :| u in remaining;
        order := order + [u];
        remaining := remaining - {u};
      }
    }

    /**
     * One row of the sweep: create the row's "inconcluído" ticket from its
     * swept answers at instant `at`.
     */
    method CreateSweepTicket(u: string, at: Instant)
      requires u in conversations
      modifies this
      ensures conversations == old(conversations) && messageLogs == old(messageLogs)
      ensures tickets == old(tickets) + [SweepTicket(conversations, u, at)]
      ensures nextConversationId == old(nextConversationId)
    {
      var conv := conversations[u];
      var userData := IncompleteSnapshot(SweptAnswers(conv.collectedData));
      var _, _ := CreateTicket(u, userData, INCOMPLETE, at);
      CreatedIsSweepTicket(conversations, conversations, u, at);
    }

    /**
     * The sweep's loop over the first `count` rows of `order`: for each, its
     * ticket (the i-th with clock reading `clock(i)`), then its reset.
     */
    method SweepRows(order: seq<string>, count: nat, clock: nat -> Instant)
      requires Valid()
      requires count <= |order|
      requires forall i, j :: 0 <= i < j < |order| ==> order[i] != order[j]
      requires forall u :: u in order ==> u in conversations
      modifies this
      ensures Valid()
      ensures conversations.Keys == old(conversations).Keys
      ensures forall u :: u in conversations ==>
        conversations[u] == if u in order[..count] then ResetRow(old(conversations)[u]) else old(conversations)[u]
      ensures tickets == old(tickets) + SweepTickets(old(conversations), order[..count], clock)
      ensures messageLogs == old(messageLogs) && nextConversationId == old(nextConversationId)
    {
      ghost var rows := conversations;
      assert order[..0] == [];
      var i := 0;
      while i < count
        invariant i <= count
        invariant Swept(rows, order[..i], clock, old(tickets))
        invariant messageLogs == old(messageLogs) && nextConversationId == old(nextConversationId)
      {
        assert order[i] !in order[..i];
        SweepStep(order, i, clock, rows, old(tickets));
        i := i + 1;
      }
      ResetAllRows(rows, order[..count]);
    }

    /** The store after the sweep has ticketed and reset exactly the rows of `done`, in order. */
    ghost predicate Swept(rows: map<string, Row>, done: seq<string>, clock: nat -> Instant, before: seq<Ticket>)
      reads this
    {
      Valid() &&
      conversations == ResetAll(rows, done) &&
      (forall u :: u in done ==> u in rows) &&
      tickets == before + SweepTickets(rows, done, clock)
    }

    /** One turn of the sweep's loop: ticket, then reset, the `i`-th row of `order`. */
    method SweepStep(order: seq<string>, i: nat, clock: nat -> Instant, ghost rows: map<string, Row>,
                     ghost before: seq<Ticket>)
      requires i < |order| && order[i] !in order[..i] && order[i] in rows
      requires Swept(rows, order[..i], clock, before)
      modifies this
      ensures Swept(rows, order[..i + 1], clock, before)
      ensures messageLogs == old(messageLogs) && nextConversationId == old(nextConversationId)
    {
      var u := order[i];
      ResetAllAt(rows, order[..i], u);
      CreateSweepTicket(u, clock(i));
      SweepTicketsSnoc(rows, order[..i], u, clock);
      AppendAssociates(before, SweepTickets(rows, order[..i], clock), [SweepTicket(rows, u, clock(i))]);
      var _ := ResetUserConversation(u);
      ResetAllSnoc(rows, order[..i], u);
      PrefixGrows(order, i);
    }

    /**
     * The sweep over the selected rows `order`: ticket then reset each in
     * turn until a call throws. A throwing ticket leaves its row untouched;
     * a throwing reset leaves its row ticketed but not reset.
     */
    method SweepSelected(order: seq<string>, clock: nat -> Instant, fault: Fault) returns (r: Result<nat, DbError>)
      requires Valid() && fault != ScanFails
      requires forall i, j :: 0 <= i < j < |order| ==> order[i] != order[j]
      requires forall u :: u in order ==> u in conversations
      modifies this
      ensures Valid()
      ensures messageLogs == old(messageLogs) && nextConversationId == old(nextConversationId)
      ensures conversations.Keys == old(conversations).Keys
      ensures forall u :: u in conversations ==>
        conversations[u] == if u in order[..ResetCount(fault, |order|)] then ResetRow(old(conversations)[u])
                            else old(conversations)[u]
      ensures tickets == old(tickets) + SweepTickets(old(conversations), order[..Ticketed(fault, |order|)], clock)
      ensures r.Err? <==> Aborts(fault, |order|)
      ensures r.Ok? ==> r.value == |order|
    {
      ghost var rows := conversations;
      var completed := if Aborts(fault, |order|) then fault.row else |order|;
      SweepRows(order, completed, clock);
      if fault.ResetFails? && fault.row < |order| {
        // The ticket is created, then resetting the row throws.
        var u := order[completed];
        assert u !in order[..completed];
        CreateSweepTicket(u, clock(completed));
        SweepTicketsSnoc(rows, order[..completed], u, clock);
        AppendAssociates(old(tickets), SweepTickets(rows, order[..completed], clock),
                         [SweepTicket(rows, u, clock(completed))]);
        PrefixGrows(order, completed);
      }
      if Aborts(fault, |order|) {
        return Err(DbError);
      }
      r := Ok(|order|);
    }

    /**
     * `markIncompleteConversations` at time `now`: select the open, non-reset
     * rows untouched for five minutes; for each, in the order the query
     * returns them (`order`), create an "inconcluído" ticket from its answers
     * (the i-th with clock reading `clock(i)`), then reset the row; return how
     * many rows were selected. A throwing call ends the sweep: rows already
     * handled stay handled, later rows are not touched, and a row whose reset
     * threw keeps its ticket and stays selectable.
     */
    method MarkIncompleteConversations(now: int, clock: nat -> Instant, fault: Fault)
      returns (r: Result<nat, DbError>, ghost order: seq<string>)
      requires Valid()
      modifies this
      ensures Valid()
      ensures messageLogs == old(messageLogs) && nextConversationId == old(nextConversationId)
      ensures forall i, j :: 0 <= i < j < |order| ==> order[i] != order[j]
      ensures forall u :: u in order ==> u in StaleUsers(old(conversations), now)
      ensures fault != ScanFails ==> forall u :: u in StaleUsers(old(conversations), now) ==> u in order
      ensures conversations.Keys == old(conversations).Keys
      ensures forall u :: u in conversations ==>
        conversations[u] == if u in order[..ResetCount(fault, |order|)] then ResetRow(old(conversations)[u])
                            else old(conversations)[u]
      ensures tickets == old(tickets) + SweepTickets(old(conversations), order[..Ticketed(fault, |order|)], clock)
      ensures StaleUsers(conversations, now) ==
        StaleUsers(old(conversations), now) - set u | u in order[..ResetCount(fault, |order|)]
      ensures r.Err? <==> Aborts(fault, |StaleUsers(old(conversations), now)|)
      ensures r.Ok? ==> r.value == |StaleUsers(old(conversations), now)|
    {
      if fault == ScanFails {
        order := [];
        assert order[..0] == [];
        StaleAfterResets(conversations, conversations, [], now);
        return Err(DbError), order;
      }
      var selected := SelectStale(now);
      r := SweepSelected(selected, clock, fault);
      order := selected;
      StaleAfterResets(old(conversations), conversations, order[..ResetCount(fault, |order|)], now);
    }
  }
}
