# Taborda intake bot: dialogue and conversation store

A Dafny model of a WhatsApp help-desk bot ("Taborda"). It has two parts.

**The intake dialogue** (`chatbot.js`). Every private message is stepped through a 13-state script:
- a welcome;
- an "ok" gate;
- a problem type from a menu of six;
- a free-text description longer than 20 characters;
- a second "ok" gate;
- six personal questions (name, sector, cost centre, phone, e-mail, equipment patrimony);
- a summary to confirm with "sim";
- a restart menu reached with "não".

The per-user conversations live in the in-memory object `userStates`.

**The conversation store** (`database/queries.js`). Conversation rows are upserted, reset and read back. Messages are logged. Tickets are created with numbers of the form `TICK-YYYYMMDD-NNNNNN`. A periodic sweep turns every open conversation that is not in the reset state 'inicial' and has been idle for more than five minutes into an "inconcluído" (incomplete) ticket, and then resets the row.

Modules:
- `Dialogue` is the handler's `switch` as a pure function, `Step`. It takes the state, the answers and the trimmed text. It returns the new entry, or `None` when the entry is deleted, and the messages sent. Messages are named by the `Message` datatype; `Text` gives each one's exact wording.
- `Chatbot.Bot` is the handler itself: a class whose `userStates` map `OnMessage` updates in place.
- `JsString` holds the JavaScript string semantics the code relies on:
  - `trim`, `toLowerCase` and `endsWith`;
  - `.length` and `<` on UTF-16 code units;
  - `String(n)`, `padStart` and `slice(-n)`.
- `Tickets` holds the ticket number and the record `createTicket` inserts.
- `Queries.Store` is the three tables:
  - `user_conversations` is a map keyed by the unique `user_id`;
  - `support_tickets` and `message_logs` are append-only sequences.

Clock readings are parameters: `now` for SQL `NOW()`, and an `Instant` per `new Date()`. The sweep's selection order is unspecified by its SQL, so it is an arbitrary choice. Which database call of the sweep throws, if any, is a `Fault` parameter.

Notes on the code as written:
- Confirming with "sim" only deletes the in-memory entry. `chatbot.js` never calls the store, so no "completed" ticket is created.
- The handler never reads a state from the store, so the `default` branch is not reached by the running bot. A state outside the enumeration (`Unlisted`) takes the `default` branch: it moves to `waiting_ok_start` and keeps the collected answers.
- The dialogue's first state is `"initial"`, while the store resets rows to `'inicial'` and the sweep filters on `'inicial'`. The two spellings are kept apart: `Queries.STORE_INITIAL` and `Dialogue.Initial`.
- The sweep's idle threshold is five minutes, as in the SQL. The comments in `markIncompleteConversations` say ten and ninety.
- The SQL of `resetUserConversation` does not set `updated_at`.
- The handler's local problem-type table says "Outros" for 6; the menu and the global table say "Outro".

## Model

| member | source | states |
|---|---|---|
| JsString.EndsWith | chatbot.js:58 | `endsWith`, a definition: the last characters are the suffix |
| JsString.Length | chatbot.js:191 | `.length`, a definition: the number of UTF-16 code units; see `JsString.CodeUnits` and `JsString.BmpLength` |
| JsString.Less | chatbot.js:149 | `<` on strings, a definition: lexicographic order on UTF-16 code units; characterised for the menu by `Dialogue.InMenuRangeExactly` |
| JsString.LeadingTrimmable | chatbot.js:62 | the count of leading white-space code points: all of them are trimmable and the next one is not |
| JsString.TrailingTrimmable | chatbot.js:62 | the count of trailing white-space code points: all of them are trimmable and the one before is not |
| JsString.Trim | chatbot.js:62 | `trim()` is a contiguous piece of the input starting after the leading white space; everything around it is white space and neither end of the piece is |
| JsString.LowerChar | chatbot.js:130 | one code point lower-cased gives one or two code points, none an ASCII capital; two exactly for U+0130 |
| JsString.ToLowerCase | chatbot.js:130 | `toLowerCase()` is never shorter than its input and contains no ASCII capital |
| JsString.ToLowerCaseEquals | chatbot.js:130 | a text lower-cases to a one-code-unit-per-char word iff it has the same length and each code point lower-cases to the word's letter |
| JsString.Units | chatbot.js:191 | a code point is one UTF-16 code unit below U+10000, else a surrogate pair starting with a high surrogate |
| JsString.CodeUnits | chatbot.js:149 | a string's UTF-16 code units number between one and two per code point, starting with the first code point's first unit |
| JsString.BmpLength | chatbot.js:191 | `.length` equals the number of code points when none is astral |
| JsString.DigitChar | database/queries.js:143 | the digit `d` is written as the `d`-th character of "0123456789", a decimal digit that reads back as `d` |
| JsString.NatToString | database/queries.js:143-145 | `String(n)` is a non-empty digit string with no leading zero |
| JsString.DigitsValueOfNatToString | database/queries.js:143-145 | `String(n)` read back as a decimal number is `n` |
| JsString.NatToStringLength | database/queries.js:142 | `String(n)` has exactly `k` digits when 10^(k-1) <= n < 10^k |
| JsString.NatToStringLongEnough | database/queries.js:145 | `String(n)` has more than `k` digits when n >= 10^k |
| JsString.PadStart | database/queries.js:143-144 | `padStart(width, fill)` keeps the text at the end, fills the front with `fill`, and has length max(width, length) |
| JsString.SliceLast | database/queries.js:145 | `slice(-n)` is a suffix of the text, `n` characters long, or the whole text when it is shorter or when `n` is 0 (`-0` is the start index 0) |
| CollectedData.OrElse | database/queries.js:178-185 | `data.f \|\| fallback`, a definition; it is truthy iff the slot is or the fallback is. What it means for the stored columns is stated by `Tickets.NewTicket` and `Tickets.IncompleteSnapshot` |
| Dialogue.ParseState | chatbot.js:29-43 | the state a stored string selects always has that string as its name |
| Dialogue.StateNamesDistinct | chatbot.js:29-43 | every enumerated state's name selects that state: the thirteen names are distinct |
| Dialogue.Text | chatbot.js:84-414 | the exact text of each message the handler sends, a definition |
| Dialogue.ConfirmationMessage | chatbot.js:303-314 | the confirmation summary, a definition: each answer in its line, "undefined" for an unset slot |
| Dialogue.InMenuRange | chatbot.js:149 | `text >= "1" && text <= "6"` on UTF-16 code units, a definition; characterised by `Dialogue.InMenuRangeExactly` |
| Dialogue.ProblemTypeLabel | chatbot.js:150-157 | the handler's local table, "Outros" for 6 and undefined for any other key, a definition; its effect is stated by `Dialogue.ProblemTypeChoice` and `Dialogue.ProblemTypeOddInputs` |
| Dialogue.Step | chatbot.js:56-416 | every turn sends at least one message; only "sim" at the confirmation deletes the entry; a surviving entry is in an enumerated state other than `initial`; a turn that stays leaves the answers alone and sends one message; no turn writes a slot other than its state's own |
| Dialogue.SaysOk | chatbot.js:130 | a text lower-cases to "ok" iff it is two code points, o/O then k/K or the Kelvin sign |
| Dialogue.LowerCharIs | chatbot.js:130 | the code points that lower-case to a given ASCII letter are the letter, its capital, and the Kelvin sign for k |
| Dialogue.InitialWelcomes | chatbot.js:84-126 | from `initial` any text sends the four welcome messages and moves to `waiting_ok_start` with the answers unchanged |
| Dialogue.OkGate | chatbot.js:128-145 | in either "ok" gate a text that lower-cases to "ok" advances (to the problem-type menu, or to the name question) and sends that menu or question; anything else keeps the state and answers and sends the gate's re-prompt (also chatbot.js:220-237) |
| Dialogue.InMenuRangeExactly | chatbot.js:149 | `"1" <= text <= "6"` in string order holds iff the text starts with 1 to 5, or is exactly "6" |
| Dialogue.ProblemTypeChoice | chatbot.js:147-186 | a text in range moves to the description with the table's label stored (unset when the table has no such key) and sends the "noted" message and the description prompt; any other text changes nothing and sends the range re-prompt |
| Dialogue.ProblemTypeOddInputs | chatbot.js:149-160 | "10" and "5x" are accepted and leave the problem type unset; "7" and "0" are rejected; "6" stores "Outros" and "3" stores "Internet" |
| Dialogue.DescriptionLength | chatbot.js:189-218 | a description is accepted iff its UTF-16 length exceeds 20: it is stored and the "noted" message and the announcement of the personal questions are sent; a rejected one changes nothing and sends the too-short message |
| Dialogue.DescriptionBoundary | chatbot.js:191 | without astral code points, 20 characters are rejected and 21 accepted |
| Dialogue.AskingChain | chatbot.js:239-343 | each asking state stores the text unchecked in its own slot, moves to the next state and asks the next question; after the patrimony it sends "generating", the summary of the answers with the patrimony just given, and the confirmation question |
| Dialogue.AskingOrder | chatbot.js:239-343 | the questions go name, sector, cost centre, phone, e-mail, patrimony, then the confirmation, each filling its own slot |
| Dialogue.CapitalisedAnswersNeverMatch | chatbot.js:356-357 | no lower-cased text equals "Não" or "Nao" |
| Dialogue.Confirmation | chatbot.js:345-373 | "sim" in any case deletes the entry and sends the closing message; "não"/"nao" opens the restart menu with the answers kept and sends it; anything else stays and sends the sim/não re-prompt |
| Dialogue.RestartChoice | chatbot.js:375-402 | "1", "2" and "3" go back to the problem type, the description and the name with the answers kept, each sending its question; anything else stays and sends the 1/2/3 re-prompt |
| Dialogue.UnknownStateRestarts | chatbot.js:404-414 | a state outside the enumeration moves to `waiting_ok_start`, keeps the answers and sends the long welcome |
| Dialogue.StoreResetStateIsUnknown | database/queries.js:89 | the store's reset value 'inicial' is not a dialogue state and selects the default branch |
| Chatbot.Bot.constructor | chatbot.js:26 | `userStates` starts empty |
| Chatbot.Bot.OnMessage | chatbot.js:56-73 | a non-private sender changes and sends nothing; otherwise the sender's entry (created as `initial` on a first message) is stepped with the trimmed text and replaced or deleted; a first message leaves `waiting_ok_start` and sends the welcome; no other user's entry changes; every entry stays in an enumerated, non-initial state (also chatbot.js:351) |
| Tickets.TicketNumber | database/queries.js:140-148 | `generateTicketNumber()`, a definition; its shape is stated by `Tickets.TicketNumberShape` |
| Tickets.TicketNumberJoined | database/queries.js:147 | the ticket number is prefix, year, month, day, "-" and suffix concatenated |
| Tickets.PartsShape | database/queries.js:140-147 | a four-digit year, a month index, a day and a six-character suffix give a 20-character number with each part at a fixed position, the date parts reading back as year, month index + 1 and day |
| Tickets.FixedDigits | database/queries.js:145 | the last `k` digits of a number form a digit string of length `k` |
| Tickets.FixedDigitsPeriodic | database/queries.js:145 | adding a multiple of 10^k leaves the last `k` digits unchanged |
| Tickets.SliceLastAppend | database/queries.js:145 | the last `k` characters after appending one are the last `k-1` before it plus that one |
| Tickets.LastDigits | database/queries.js:145 | `String(n).slice(-k)` of a number with at least `k` digits is its last `k` digits |
| Tickets.TwoDigits | database/queries.js:143-144 | a month or day below 100, padded to two, is two digits reading back as itself |
| Tickets.NumberLayout | database/queries.js:147 | with a four-digit year, two-digit month and day and a six-character suffix, the number has 20 characters with each part at a fixed position |
| Tickets.YearPart | database/queries.js:142 | a four-digit year is written as four digits reading back as the year |
| Tickets.SuffixPart | database/queries.js:145 | a timestamp of at least six digits contributes its last six digits |
| Tickets.TicketNumberShape | database/queries.js:140-148 | for a four-digit year and a timestamp of at least six digits the number is 20 characters: "TICK-", eight digits reading back as year, month index + 1 and day, "-", and the timestamp's last six digits |
| Tickets.TicketNumbersCollide | database/queries.js:145-147 | two instants of the same day whose timestamps differ by a multiple of 10^6 ms get the same number |
| Tickets.SameDateSameSuffix | database/queries.js:140-148 | the number depends only on the date and the timestamp's last six characters |
| Tickets.SuffixesCollide | database/queries.js:145 | timestamps 10^6 ms apart end in the same six characters |
| Tickets.NewTicket | database/queries.js:151-191 | the inserted row carries the conversation id, user id, number and copied status; each answer column is the supplied value when truthy, otherwise "" for name, sector, cost centre, phone and e-mail and "Não informado" for the other three |
| Tickets.IncompleteSnapshot | database/queries.js:228-238 | the sweep's object has all eight slots set and truthy, each the collected value or "Não informado" |
| Tickets.IncompleteTicketFields | database/queries.js:228-241 | a swept ticket has status "inconcluído" and every answer column the collected value or "Não informado" |
| Tickets.NameOnlyTicket | database/queries.js:228-241 | answers holding only a name give a ticket with that name and "Não informado" in every other column |
| Queries.ResetCount | database/queries.js:217-256 | a sweep resets no row when the scan throws, all selected rows iff no call throws, and otherwise exactly the rows before the one whose call throws |
| Queries.Ticketed | database/queries.js:240-243 | the rows ticketed are exactly the reset ones, plus the next one exactly when its reset throws |
| Queries.ReadersOfCollectedData | database/queries.js:28-39 | the lookup and the sweep read text columns alike; a driver-parsed object is kept by the lookup and read as {} by the sweep (also database/queries.js:219-226) |
| Queries.ConversationIdOf | database/queries.js:109-116 | `SELECT id … WHERE user_id = ?`, a definition; what it links is stated by `Queries.ConversationIdLinksOneRow` and the `SaveMessage` and `CreateTicket` contracts (also database/queries.js:155-160) |
| Queries.ConversationIdLinksOneRow | database/queries.js:109-116 | with distinct row ids, two users are linked to the same conversation id only when they are the same user or neither has a row |
| Queries.ResetRow | database/queries.js:84-96 | a reset row keeps its id and `updated_at` and reads back as state 'inicial', answers {}, status 'aberto' |
| Queries.IsStale | database/queries.js:210-215 | the sweep's filter, a definition: status 'aberto', state other than 'inicial', `updated_at` more than five minutes before `now`; see `Queries.ResetRowIsNotStale` and `Queries.StaleAfterResets` |
| Queries.StoredAnswers | database/queries.js:28-39 | `getUserConversation`'s reading of `collected_data`, a definition; compared with the sweep's by `Queries.ReadersOfCollectedData` |
| Queries.SweptAnswers | database/queries.js:219-226 | the sweep's reading of `collected_data`, a definition; compared with the lookup's by `Queries.ReadersOfCollectedData` |
| Queries.StaleUsers | database/queries.js:210-215 | the sweep selects only users that have a row |
| Queries.ResetRowIsNotStale | database/queries.js:213 | a reset row is never selected again |
| Queries.StaleAfterResets | database/queries.js:210-243 | resetting some rows removes exactly those from the selection |
| Queries.SweepTickets | database/queries.js:217-241 | a sweep over `k` rows creates `k` tickets |
| Queries.SweepTicketsAt | database/queries.js:217-241 | the i-th swept ticket is the i-th row's, with the i-th clock reading |
| Queries.SweepTicketsSnoc | database/queries.js:217-241 | handling one more row appends exactly that row's ticket |
| Queries.ResetAll | database/queries.js:243 | resetting a sequence of users never adds or removes rows |
| Queries.ResetAllAt | database/queries.js:243 | after resetting a sequence of users a row is reset iff its user is in the sequence |
| Queries.ResetAllRows | database/queries.js:243 | the same, for every row at once |
| Queries.ResetAllSnoc | database/queries.js:243 | resetting one more user is one more `resetUserConversation` |
| Queries.CreatedIsSweepTicket | database/queries.js:228-241 | the ticket `createTicket` inserts for an untouched selected row is that row's sweep ticket |
| Queries.Store.GetUserConversation | database/queries.js:7-58 | null iff the user has no row; otherwise the row's id, state and status with answers that are the parsed text, the driver object, or {} |
| Queries.Store.UpdateUserConversation | database/queries.js:62-81 | the user's row is inserted with a fresh id or overwritten keeping its id, with the state, the answers as JSON text, the status (default 'aberto') and `updated_at = now`; it reads back as written; no other row or table changes; an insert returns the new id |
| Queries.Store.ResetUserConversation | database/queries.js:84-101 | only the user's row is reset, keeping its id and `updated_at`; returns 1 when the row exists and 0 otherwise |
| Queries.Store.SaveMessage | database/queries.js:106-135 | exactly one log entry is appended, linked to the user's row id or to null; returns its id; nothing else changes |
| Queries.Store.CreateTicket | database/queries.js:151-198 | exactly one ticket is appended, numbered from the call's instant and built by `NewTicket`; returns its id and number; nothing else changes |
| Queries.Store.SelectStale | database/queries.js:210-215 | the selected users are exactly the stale ones, each once |
| Queries.Store.CreateSweepTicket | database/queries.js:217-241 | one row's step appends exactly that row's "inconcluído" ticket, built from its swept answers with `createTicket`, and changes nothing else |
| Queries.Store.SweepRows | database/queries.js:217-244 | after handling the first `k` selected rows, exactly they are reset and their tickets appended in order |
| Queries.Store.SweepStep | database/queries.js:240-243 | one turn of the loop tickets and then resets the next row |
| Queries.Store.SweepSelected | database/queries.js:217-256 | a sweep over the selection resets `ResetCount` rows and tickets `Ticketed` rows, in order; it fails iff a call throws; on success it returns the number selected |
| Queries.Store.MarkIncompleteConversations | database/queries.js:207-257 | the stale rows are selected, each once; exactly the first `Ticketed` of them get one "inconcluído" ticket each, in order and with nothing else appended; exactly the first `ResetCount` are reset and every other row is unchanged; the reset rows leave the selection; it throws iff the scan or a row's call throws, otherwise it returns the number selected |

Proof helpers without a row of their own: `JsString.AllDigitsAppend`, `JsString.Pow10`, `JsString.Pow10Grows`, `Tickets.ConcatSix`, `Queries.AppendAssociates`, `Queries.PrefixGrows` and `Queries.Store.Swept`.

## Left out

- The WhatsApp transport: login, `getChat`, `sendStateTyping` and message delivery. A turn's messages are returned in order instead of sent.
- The `delay` pauses: they only pace the replies.
- Concurrency: two messages from one user handled at once, and a sweep running beside a turn. Each operation is atomic here.
- `getStatistics`: aggregate counts over the current date.
- `database/connection.js` and `debug-connection.js`: pool set-up and a connectivity probe.
- Console logging.
- `JSON.stringify` and `JSON.parse`: a text column carries its parse result, and `None` means parsing throws. Only object results are modelled. A column holding `null` (what `updateUserConversation(u, s, null)` writes) is not: `getUserConversation` would return `data: null`, and the sweep would throw a TypeError reading `collectedData.name` outside its inner `try`, so it rethrows and that row gets no ticket, as with a `TicketFails` fault. Other non-object results (a number, a string, an array, a boolean) are not modelled either: the lookup would return them as they are, and the sweep, finding no answer slots in them, would ticket every field as "Não informado".
- The `Date` object: an `Instant` carries the local year, month index, day and epoch milliseconds. Their consistency with each other is not modelled.
- MySQL's `NOW()` and `DATE_SUB`: `updated_at` is compared as an integer number of seconds.
- `created_at` columns, because nothing in the core reads them.
- The table schema is not part of this model. The store assumes three things about it:
  - `collected_data` is a text column. Every row the store writes is read back as JSON text, so a stored row is never a driver-parsed object. With a JSON column the driver would return written answers as objects, and the sweep would read them as {} and ticket every field as "Não informado". The lookup and the sweep reading such an object are modelled (`DriverObject`), but no operation of the store produces one.
  - String comparisons are exact, as under a binary collation. The connection's `utf8mb4` character set has case- and accent-insensitive default collations, under which `user_id = ?`, `status = 'aberto'` and `current_state <> 'inicial'` would also match values such as 'Aberto' or 'INICIAL'.
  - `updated_at` changes only when the SQL sets it. An `ON UPDATE CURRENT_TIMESTAMP` column would also refresh it on `resetUserConversation`.
  - `ticket_number` has no UNIQUE constraint, so two tickets with a colliding number (see `Tickets.TicketNumbersCollide`) are both stored. With a UNIQUE constraint the second `createTicket` would throw; inside the sweep that is a `TicketFails` fault.
- JsString.ToLowerCase: covers ASCII, the Latin-1 capitals, U+0130 and the Kelvin sign. Every other capital is left unchanged (for example U+0100 Ā and U+0178 Ÿ), so the contract is weaker than full Unicode case mapping.
- Queries.Store.CreateTicket: takes `userData.status` as a string. With an undefined status the driver refuses the bind value, `createTicket` throws and nothing is inserted; that call is not modelled. The only caller, the sweep, always passes "inconcluído".
- Queries.Store.GetUserConversation, Queries.Store.UpdateUserConversation, Queries.Store.ResetUserConversation, Queries.Store.SaveMessage and Queries.Store.CreateTicket model only a successful call. A call that throws changes nothing and rethrows, and is not modelled. The sweep's own failures are modelled by `Fault`.
- Chatbot.Bot.OnMessage: covers only turns whose `getChat`, `sendStateTyping` and `sendMessage` calls all succeed; the whole turn is applied at once. The handler writes `userStates` in place before its awaits, so a rejected call ends the turn with a partial write the model does not capture: a first message whose `getChat` rejects leaves a new `{state: "initial", data: {}}` entry; a failing send in the `initial` branch leaves the entry in `initial`; `problemType` and the asking slots are stored before their sends, so a failing send keeps the answer with the state not advanced; the `default` branch leaves `"initial"` when its send fails; and a failing send after "sim" keeps the entry, because the delete never runs. In these cases the invariant that every entry is in an enumerated state other than `initial` does not hold.
- Queries.Store.UpdateUserConversation: the return value for an update is not stated. It is the driver's `insertId`, or else the affected-row count, for an upsert that updated.
- Queries.Store.SelectStale: the SQL has no `ORDER BY`. The order is an arbitrary choice, and every contract holds for any order.
