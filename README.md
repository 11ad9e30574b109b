# G5 meetup registration bot — a Dafny model

A Dafny model of the core of a Telegram bot that registers people for a
meetup, keeps them in a spreadsheet and reminds them. The core has three parts:

* The seven-question registration dialog. It covers full name, e-mail,
  position (with an "other" detour to a free-text position), company,
  experience, job search and prior knowledge of the company.
  * Each user's conversation state and collected answers are kept per user (the bot's storage keys them by chat and user, which coincide in a private chat).
  * The `/start` command is recognised in every state.
* The sheet as a row store. The header is in row 1 and the Telegram id is in
  column A.
  * `find_user_row` scans column A.
  * `update_confirmed` writes column J.
  * At the end of the dialog the user's ten-cell row is upserted: it
    overwrites `A{row}:J{row}` when the user has a row, and is appended
    otherwise.
* Attendance confirmation and the two reminder broadcasts.
  * The day-before reminder goes to every record whose `user_id` parses as an
    integer and whose `confirmed` is not "no".
  * The day-of reminder goes only to records whose `confirmed` is "yes".
  * Both comparisons ignore surrounding white space and letter case.
  * A failed send is skipped and the loop goes on.

Modules, one file each:

| file | module | contents |
|---|---|---|
| `wrappers.dfy` | `Wrappers` | `Option` |
| `text.dfy` | `Text` | Python's `str.strip` (the `isspace` set), `lower` on ASCII letters, `str(int)` and `int(str)`, with their round trip |
| `registration.dfy` | `Registration` | The dialog as pure functions: one handler per state, message routing, the transition table the handlers implement, the conversation invariant and whole-dialog runs |
| `row_store.dfy` | `RowStore` | The sheet as a grid of text cells, with the lookups and writes as specification functions; `class Sheet` holds the rows and has the methods `FindUserRow` (the scanning loop), `UpdateConfirmed` and `Upsert` |
| `reminders.dfy` | `Reminders` | `get_all_records` read by header name, the two recipient filters and the broadcast loop with an abstract send outcome |
| `bot.dfy` | `Bot` | `class MeetupBot`, which holds the per-user sessions and the sheet; the row `finish` builds; the confirmation buttons; lemmas that link registration and confirmation to the reminders |

How the model treats the source's libraries and operations:

* Sheet cells hold text. A cell that was never written reads as "".
* The id in column A is the decimal text of the Telegram id. `str(val) == str(user_id)` is therefore a comparison of texts.
* Send outcomes are a parameter `sendOk: nat -> bool` indexed by attempt.
* Telegram replies are the abstract `Prompt` and `Ack` values.
* `get_all_records` raises when the header row repeats a name, and the reminder then messages nobody; the model reads no record from such a sheet.
* The reminder lemmas assume a header row without repeats whose `user_id` cell is in column A and whose `confirmed` cell is in column J (`Bot.StandardHeader`). The header itself is not written by the bot.

Facts about the code that the model keeps:

* Column J only ever receives "" (at registration), "yes" or "no" (from the confirmation buttons).
* The day-before reminder skips the records whose confirmation is "no". The day-of reminder keeps only the records whose confirmation is "yes".
* `start` sets the state to the first question and keeps the answers already stored (`Registration.Start`). `Registration.CompleteDialog` shows that a completed dialog overwrites all seven anyway.

## Model

| member | source | states |
|---|---|---|
| Text.TrimSlice | bot.py:140 | `strip()` returns one contiguous slice of its input. Everything removed before and after it is white space in Python's sense. The slice neither starts nor ends with white space. |
| Text.Lower | bot.py:347 | `lower()` keeps the length and maps each character to its lower-case form. Only ASCII capitals change. |
| Text.Trim | bot.py:140 | `strip()`. Its contract is `Text.TrimSlice`: a slice of the input with white space removed from both ends and none left at either end. |
| Text.DecimalString | bot.py:91 | `str(user_id)`: never empty, no white space at either end, and starting with a digit exactly when the id is not negative. |
| Text.ParseInt | bot.py:343 | `int()` on a cell: optional white space, an optional sign, then decimal digits. `Text.ParseDecimalRoundTrip` proves that it reads every `str(n)` back as `n`. |
| Text.ParseDecimalRoundTrip | bot.py:343 | `int(str(n)) == n` for every integer. An id written into column A reads back as the same id. |
| Text.DecimalStringInjective | bot.py:91 | Two ids with the same decimal text are the same id. The text comparison in the row scan therefore identifies the user. |
| Registration.Classify | bot.py:127-128 | A text goes to `start` exactly when its first word is `/start` or `/start@<bot>`. Every other text stays an ordinary text message. |
| Registration.Start | bot.py:127-135 | `start`: state `full_name`, the name prompt, no commit, stored answers kept. Proved in `Registration.StartEntersFirstStep`. |
| Registration.ProcessName | bot.py:138-142 | Stores the trimmed text under `full_name` and moves to `email`. Proved for every handler in `Registration.StepFollowsTable`. |
| Registration.ProcessEmail | bot.py:145-172 | Without '@' in the raw text: the conversation is unchanged and the e-mail prompt repeats. Otherwise it stores the trimmed text under `email` and moves to `position`. Proved in `Registration.EmailNeedsAt` and `Registration.StepFollowsTable`. |
| Registration.ProcessPosition | bot.py:175-187 | The "other" choice moves to `custom_position` and stores nothing. Any other text is stored trimmed under `position`, and the state moves to `company`. Proved in `Registration.StepFollowsTable` and `Registration.PositionPathsConverge`. |
| Registration.ProcessCustomPosition | bot.py:190-194 | Stores the trimmed text under `position` and moves to `company`. Proved in `Registration.StepFollowsTable`. |
| Registration.ProcessCompany | bot.py:197-209 | Stores the trimmed text under `company` and moves to `experience`. Proved in `Registration.StepFollowsTable`. |
| Registration.ProcessExperience | bot.py:212-224 | Stores the trimmed text under `experience` and moves to `job_search`. Proved in `Registration.StepFollowsTable`. |
| Registration.ProcessJobSearch | bot.py:227-239 | Stores the trimmed text under `job_search` and moves to `know_g5`. Proved in `Registration.StepFollowsTable`. |
| Registration.Finish | bot.py:241-244 | Stores the trimmed text under `know_g5`, thanks the user by the stored name, commits the answers and clears the conversation. Proved in `Registration.StepFollowsTable` and `Registration.CommitHoldsAllAnswers`. |
| Registration.Handle | bot.py:127-294 | Routing in registration order: `/start` in every state, then the current state's handler, then the test command outside the dialog. A message without text changes nothing. Proved in `Registration.HandleKeepsInv`, `Registration.NonTextChangesNothing` and `Registration.StartEntersFirstStep`. |
| Registration.EmptyMentionIsStart | bot.py:127 | `/start@` with an empty mention, alone or followed by arguments, is the start command whatever the bot's name, as the command filter treats an empty mention as none. |
| Registration.StartEntersFirstStep | bot.py:127-135 | `/start` in any state moves to `full_name`, asks for the name and commits nothing. The answers already stored are kept. |
| Registration.StepFollowsTable | bot.py:138-244 | Each state's handler stores the trimmed text under its own key and moves to the next state. The last step (`know_g5`) commits the map and clears the conversation. A text without '@' at the e-mail step leaves the conversation unchanged. The "other" choice moves to `custom_position` and stores nothing. |
| Registration.EmailNeedsAt | bot.py:145-151 | At the e-mail step, the conversation is unchanged exactly when the untrimmed text has no '@'. Then the reply is the "enter a valid e-mail" prompt. Otherwise the trimmed text is stored and the state becomes `position`. |
| Registration.OtherIsNotStart | bot.py:175-177 | The "✏️ Другое" choice is never taken for the `/start` command, so it reaches the position handler. |
| Registration.PositionPathsConverge | bot.py:175-194 | "Other" followed by a typed position ends in the same conversation and reply as typing that position directly: state `company`, position stored trimmed. |
| Registration.NonTextChangesNothing | bot.py:138-140 | A message without text changes neither state nor answers and gets no reply. |
| Registration.AnswerKeepsInv | bot.py:138-244 | Each handler keeps the conversation invariant. Outside the dialog nothing is stored; at each step every earlier question has an answer. |
| Registration.HandleKeepsInv | bot.py:127-244 | Every message, routed as the dispatcher routes it, keeps the conversation invariant. |
| Registration.AnswerCommitsOnlyAtEnd | bot.py:241-247 | A handler hands answers to the sheet exactly when it is the `know_g5` handler (`finish`). |
| Registration.CommitHoldsAllAnswers | bot.py:241-262 | The answers `finish` writes always hold all seven keys, so the `data.get(key, "")` defaults never apply. |
| Registration.CompleteDialogFromTexts | bot.py:127-283 | The same dialog typed as texts: they go through the `/start` filter first, and no answer is itself a `/start` command. It commits the seven trimmed answers once and ends cleared. |
| Registration.CompleteDialog | bot.py:127-283 | From any conversation, `/start` followed by seven valid answers commits exactly once and ends cleared. This holds with or without the "other" detour. The commit is the seven trimmed answers and nothing left from before. |
| RowStore.FindRow | bot.py:87-93 | The row found is never the header. It is the smallest 1-based row ≥ 2 whose column A equals the key. `None` means no data row holds the key. |
| RowStore.FoundIffCounted | bot.py:87-93 | The lookup finds a row exactly when the user has at least one data row. |
| RowStore.Sheet.FindUserRow | bot.py:87-93 | The loop over the column values below the header returns exactly `FindRow` of the sheet and the id's text. It changes nothing. |
| RowStore.SetCell | bot.py:104 | `update_cell` sets exactly one cell to the value. No other cell and not the row count changes. |
| RowStore.WriteRange | bot.py:267 | `update("A{r}:J{r}", [values])` sets the row's first cells to `values`. No other cell and not the row count changes. |
| RowStore.SetCellKeepsKeys | bot.py:96-105 | A write outside column A (the confirmation) changes neither the row any id is found at nor how many rows it has. |
| RowStore.Sheet.UpdateCell | bot.py:104 | The sheet becomes `SetCell` of the old sheet at the 1-based row and column. |
| RowStore.Sheet.AppendRow | bot.py:265 | The sheet becomes the old rows followed by the new row. |
| RowStore.Sheet.UpdateRowRange | bot.py:267 | The sheet becomes `WriteRange` of the old sheet at the 1-based row. |
| RowStore.Sheet.UpdateConfirmed | bot.py:96-105 | It reports true exactly when the user has a row. Then column J of that row holds the value and nothing else changed. Otherwise the sheet is unchanged. |
| RowStore.Sheet.Upsert | bot.py:250-267 | The sheet becomes `Upserted` of the old sheet: the user's row is overwritten in place, or a row is appended when there is none. |
| RowStore.UpsertFindsRow | bot.py:250-267 | After the upsert the user is found at the old row, or at the new last row. That row holds the written values. The sheet grew by one row exactly when the user had none. |
| RowStore.UpsertCounts | bot.py:250-267 | After the upsert the user has one data row if they had none, and as many as before otherwise. Every other id keeps its count. |
| RowStore.UpsertKeepsKeysUnique | bot.py:250-267 | If every id had at most one data row, this still holds after the upsert. |
| RowStore.ReRegisterReplaces | bot.py:250-267 | Registering twice leaves the sheet as the second registration alone would. |
| Reminders.LastIndexOf | bot.py:332 | The column a record reads a field from is a header cell with that name, and no later cell has the name. It is `None` exactly when no header cell has the name. Records are only read under a header without repeats, where that cell is the only one. |
| Reminders.UserIdOf | bot.py:343 | `int(record.get("user_id"))`: no id when the header has no `user_id` or the cell does not parse. Under the standard header it reads a registered row's id back (`Bot.RowReadsBack`). |
| Reminders.Status | bot.py:347 | `(record.get("confirmed") or "").strip().lower()`. Under the standard header it is column J trimmed and lowered (`Bot.RowReadsBack`). |
| Reminders.Selects | bot.py:341-372 | A campaign sends to a record whose id parses and that is not "no" (day before) or is "yes" (day of). Membership is proved in `Reminders.RecipientsMembership`. |
| Reminders.RepeatedHeaderMessagesNobody | bot.py:332 | A header that repeats a name makes the record read raise, so neither campaign messages anyone. |
| Reminders.Broadcast | bot.py:341-378 | The ids attempted are exactly `Recipients` of the records, in order, whatever the sends do. The ids delivered are those attempted whose send went through. |
| Reminders.RecipientsMembership | bot.py:341-372 | An id is messaged exactly when some record carries it, its `user_id` parses as that id, and the campaign's status rule keeps the record. |
| Reminders.EventDayWithinDayBefore | bot.py:347-371 | Everyone the day-of reminder goes to also got the day-before reminder. |
| Reminders.DeliveredMembership | bot.py:350-354 | An id is delivered exactly when one of its attempts went through, so a failed send costs only its own message. No more ids are delivered than attempted. |
| Reminders.AllDeliveredWithoutFailures | bot.py:374-378 | With no failed send, everyone attempted is delivered, in order. |
| Bot.HandleCell | bot.py:248 | Column B is "" exactly when the account has no username or an empty one. Otherwise it is "@" followed by the username. |
| Bot.BuildRow | bot.py:251-262 | The ten cells of `finish`: the id's text, the handle, the seven answers in question order (a missing one as ""), and an empty confirmation. |
| Bot.RegisteredRowHoldsAnswers | bot.py:247-267 | After `finish` writes, the user's row reads: the id, the handle, each answer in its column (a missing one as ""), and an empty confirmation. It is found at the old row or as a new last row. |
| Bot.MeetupBot.constructor | bot.py:70-71 | The bot starts with no sessions. |
| Bot.MeetupBot.OnMessage | bot.py:127-283 | A message is routed to `start` or to the handler of the user's state. Only that user's session changes. The reply is the handler's. On the last answer the sheet becomes the upsert of the ten-cell row; otherwise it is unchanged. The conversation invariant is kept. |
| Bot.MeetupBot.OnCallback | bot.py:300-324 | "confirm_no" and "confirm_yes" write "no" or "yes" into column J of the user's row and answer "declined" or "coming". A user without a row gets "register first" and nothing is written. Other payloads have no handler and change nothing. |
| Bot.RowReadsBack | bot.py:341-347 | Under the standard header, a row with the id in column A and `v` in column J reads back as that id, with status `v` trimmed and lowered. |
| Bot.RegistrationGetsFirstReminderOnly | bot.py:250-372 | A freshly written registration row is selected by the day-before reminder and not by the day-of one. The user is among the day-before recipients. |
| Bot.ConfirmedGetsBothReminders | bot.py:300-372 | After "I'll come" the user is among the recipients of both reminders. |
| Bot.DeclinedGetsNoReminder | bot.py:305-372 | After "plans changed" the user's row is selected by neither reminder. |

## Left out

- Telegram transport is not modelled: message texts, HTML, reply and inline keyboards, the calendar buttons, `callback.answer`, and the `/test_confirm` markup. These are presentation and foreign calls. Replies are the abstract `Prompt` and `Ack` values.
- Configuration, credentials and the gspread login are not modelled. They are startup I/O.
- Scheduling is not modelled: the APScheduler jobs, time zones, reminder dates, `main` and polling. These are wall-clock and runtime wiring.
- `asyncio.sleep` and async interleaving are not modelled. Each handler runs as one atomic step.
- `test_sheets.py` is a connectivity script with no logic, so it is not part of this model.
- Failures of the sheet service are not modelled. Every read and write succeeds; in the source a failing gspread call raises out of the handler or reminder.
- Reminders.UserIdOf: `int()` is modelled on text with an optional sign and ASCII digits. The model does not accept underscores or non-ASCII digits. It also leaves out gspread's conversion of numeric-looking cells to numbers, so a cell such as "1e3" is skipped here and read as 1000 by the source.
- Reminders.Status: the model reads the `confirmed` field as text. In the source, a cell holding a non-zero number reaches `.strip()` as a number. That raises outside the `try` and ends the whole reminder run. The bot only writes "", "yes" and "no" there.
- Text.Lower: only ASCII letters are lowered. That is exact for the comparisons with "yes" and "no", because a non-ASCII letter never lowers to an ASCII one in those words.
- Registration.Classify: the aiogram command filter also reads the caption of a media message and matches the bot name without regard to case. The model matches `/start`, `/start@` and `/start@<bot>` as the first word of the text only.
- RowStore.Column: `col_values` drops trailing empty cells, while the model reads them as "". The lookup is unaffected, because an id's text is never empty.
- Sessions are keyed by the user's id alone. The bot's storage keys a conversation by chat and user; the two agree in a private chat, and a user registering from a group chat and a private chat at once is not modelled.
- Reminders.Records: gspread pads every row, the header included, to the widest row before it checks the header for repeats. The model checks the stored header row as it is.
- An empty sheet without a header row is not modelled. The first appended row would land in row 1, which the row scan skips. The row-store lemmas therefore assume at least one row.
- Reminders.Broadcast: the message text and the confirmation buttons sent with it are not modelled. Only who is messaged, in which order and which sends succeed is modelled.
