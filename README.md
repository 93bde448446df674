# Problem board bot: record store, vote ledger and handler decisions

This project models the core of a Telegram bot that collects problem reports
from users. Moderators approve or reject each report. Approved reports are
published to a channel, where readers like them. The bot keeps everything in
one Google Sheets worksheet.

Every data row of the worksheet is `[ID, Text, Likes, Status, CreatedAt,
Voters]` (columns A to F), below a header row. The Voters column, the vote
ledger, holds the set of users who liked the problem as comma-separated
decimals.

The model has these parts:

- **Texts** — `decimal.dfy`, `pytext.dfy`. The Python text operations the
  code relies on: `str(n)`, `int(s)`, `s.isdigit()`, `strip()`, `split()`,
  `split(sep)` and `sep.join`.
- **Vote ledger** — `voters.dfy`. How the ledger is read and written. Reading
  splits on commas, strips each token and keeps the all-digit ones. Writing
  joins the sorted decimals with commas. It also models the numeric
  conversion the record reader applies to a cell that looks like an integer.
- **Table specification** — `sheet.dfy`. The pure functions that specify the
  record store:
  - next-id allocation;
  - the two ways a row is found: the writers compare the ID cell as text, the
    lookup compares it as a number;
  - column writes, append and filtering;
  - the like toggle on the table.
- **Record store** — `store.dfy`. `GoogleSheetsService` as the class
  `Worksheet`. Its methods change the rows in place and log every request
  sent to the spreadsheet. Each method is proved against the functions of
  `sheet.dfy`.
- **Bot output** — `outbox.dfy`. The class `Bot`, an ordered log of the
  messages sent, the answers given and the messages edited. It also holds
  the callback data of inline buttons.
- **Handlers** — `moderation.py`, `channel.py` and `user.py`, modelled in
  `moderation.dfy`, `channel.dfy` and `intake.dfy`. Each handler comes in two
  forms:
  - a function from the starting state to an `Outcome`: the rows it leaves,
    the requests it sends and the effects it appends to the bot log;
  - a method that performs the same steps on a `Worksheet` and a `Bot`, and
    is proved to produce that outcome.
- **Scenarios** — `scenarios.dfy`. Whole scenarios:
  - the store's integration script (add, read back, approve, set likes);
  - a user pressing like twice;
  - `/approve` followed by a late `/reject`.

Calls to Telegram and to the spreadsheet can raise. Each such call takes a
boolean flag saying whether it raises, and the model follows the `except`
branch the source takes then. These are the failure inputs:

- `fails` / `readFails` / `writeFails` on the store methods;
- `ToggleFaults` and `LikeFaults` for the requests of one like press;
- for sends, the bot's set of `unreachable` chats.

Points where the code and its description differ (the model follows the
code):

- **No terminality guard in the store.** `update_status` overwrites any status
  (`Sheet.StoreOverwritesDecided`). Only the `/approve` and `/reject`
  commands refuse a record that is no longer pending. The inline buttons
  write over any status (`Moderation.ButtonIgnoresStatus`,
  `Moderation.SecondDecision`).
- **A failed ID read reuses id 1.** `_get_next_id` returns 1 when reading
  the ID column raises, even when ids are already in use. Two records can
  then share an id (`Sheet.ReadFaultReusesOne`).
- **`toggle_like` ignores its two write results.** It reports the new count
  even when writing the count or the ledger failed. The count cell and the
  ledger can then disagree (`Sheet.FailedLedgerWriteIsUnreported`).
- **A ledger holding only voter `0` is lost.** It is written as `"0"`, read
  back as the number 0, and that is falsy, so it reads as empty
  (`VoterLedger.LoneZeroVoterIsLost`). Telegram user ids are positive. The
  round-trip lemmas about the stored ledger therefore assume `0` is not a
  voter.
- **Writers and the lookup match rows differently.** The writers compare the
  ID cell as text; `get_problem_by_id` compares it as a number. They pick
  the same row only when every ID cell is the `str` of its integer
  (`Sheet.IdsCanonical`). `Sheet.PaddedIdSplitsTheMatches` shows `"007"`
  splitting them. `add_problem` keeps the ID cells canonical, so the lemmas
  about later writes assume it.

## Model

| member | source | states |
|---|---|---|
| Decimal.IntToString | services/google_sheets.py:140 | `str(n)` is non-empty, made of digits with a `-` only in front, and all digits exactly when `n >= 0` |
| Decimal.ParseIntToString | handlers/moderation.py:268 | `int(str(n)) == n` for every integer, and `str(n)` is canonical |
| Decimal.CommaIsNotInt | services/google_sheets.py:248-249 | a text containing a comma never reads as an integer, so a ledger of two or more voters is never turned into a number |
| PyText.Strip | handlers/user.py:50 | the result is the slice of the input left once the whitespace before and after it is removed: it has no whitespace at either end, and is empty exactly when the input is all whitespace |
| PyText.Words | handlers/moderation.py:262 | every word of `split()` is non-empty and has no whitespace |
| PyText.WordsOfSpaces | handlers/moderation.py:262 | a text of whitespace only has no words |
| PyText.WordsAtSpace | handlers/moderation.py:262 | `split()` cuts at every whitespace character: the words of `a + c + b` are the words of `a` followed by those of `b`; with OneWord this fixes `split()` on every text |
| PyText.OneWord | handlers/moderation.py:262 | a single word splits into itself |
| PyText.Split | handlers/channel.py:29 | `split(sep)` gives at least one part and no part contains the separator |
| PyText.SplitJoin | services/google_sheets.py:253 | splitting the join of separator-free parts gives back the parts |
| PyText.TwoWords | handlers/moderation.py:262-263 | `"<a> <b>".split()` is `[a, b]` for two words |
| VoterLedger.Numericise | services/google_sheets.py:194 | a cell comes back as a number exactly when `int()` accepts it, and otherwise as its own text |
| VoterLedger.VotersOf | services/google_sheets.py:243-253 | a falsy cell (`""` or `0`) holds no voters |
| VoterLedger.Ascending | services/google_sheets.py:273 | `sorted(S)` has the members of S, each once, in strictly ascending order |
| VoterLedger.DecimalToken | services/google_sheets.py:253 | `str(n)` has no comma, passes the strip-and-isdigit filter and parses back to n |
| VoterLedger.ParseDecimals | services/google_sheets.py:253 | parsing text whose comma-separated tokens are the decimals of xs gives exactly the members of xs |
| VoterLedger.SerializedTokens | services/google_sheets.py:273 | splitting a serialised non-empty set on commas gives the decimals of its ascending enumeration |
| VoterLedger.EmptyTextHasNoVoters | services/google_sheets.py:246 | the empty ledger parses to no voters |
| VoterLedger.ParseSerializeRoundTrip | services/google_sheets.py:246-273 | parsing the serialised ledger of any set of naturals gives back the same set |
| VoterLedger.SerializedIsCanonical | services/google_sheets.py:273 | a serialised ledger that reads as a number is that number's `str` |
| VoterLedger.SeveralVotersNotZero | services/google_sheets.py:273 | two or more voters never serialise as `"0"` |
| VoterLedger.OneVoterText | services/google_sheets.py:273 | one voter serialises as its decimal |
| VoterLedger.SerializeZeroOnly | services/google_sheets.py:273 | the ledger text is `"0"` exactly for the set holding voter 0 |
| VoterLedger.StoredLedgerReadBack | services/google_sheets.py:246-253 | reading back a stored serialised set gives the same set, except that `{0}` comes back empty |
| VoterLedger.StoredLedgerRoundTrip | services/google_sheets.py:246-253 | without voter 0, the stored ledger reads back as the same set |
| VoterLedger.LoneZeroVoterIsLost | services/google_sheets.py:246 | the set `{0}` is stored as `"0"` and reads back as no voters |
| VoterLedger.Toggle | services/google_sheets.py:258-267 | the toggle adds an absent voter and removes a present one, the flag says which, other voters are kept, and the size goes up or down by one |
| VoterLedger.ToggleTwice | services/google_sheets.py:258-267 | toggling the same voter twice restores the set and reports the opposite flag |
| Sheet.MaxDigitId | services/google_sheets.py:117 | none exactly when no cell is all digits; otherwise the value of some all-digit cell and at least every all-digit cell's value |
| Sheet.NextId | services/google_sheets.py:111-122 | 1 on a failed read or when no cell is all digits; otherwise one more than the largest all-digit cell, so above every all-digit cell |
| Sheet.FirstIdRow | services/google_sheets.py:139-140 | the first row whose ID text equals the key, and none when no row matches |
| Sheet.FindRecord | services/google_sheets.py:196-198 | the first row whose ID value equals the id, and none when no row matches |
| Sheet.CellMatch | services/google_sheets.py:197 | on a canonical cell the numeric match holds exactly when the cell is `str(id)` |
| Sheet.SameRowFound | services/google_sheets.py:196-197 | with canonical ID cells the writers' text match and the lookup's numeric match pick the same row |
| Sheet.PaddedIdSplitsTheMatches | services/google_sheets.py:140 | an ID cell `"007"` is found by the lookup of 7 but by no writer |
| Sheet.SetField | services/google_sheets.py:139-144 | a writer overwrites the field of the first matching row only, keeps every ID cell, and changes nothing when no row matches |
| Sheet.SetFieldKeepsLookup | services/google_sheets.py:142 | after a write every lookup and every writer finds the same row as before, and canonical IDs stay canonical |
| Sheet.LookupAfterWrite | services/google_sheets.py:139-144 | with canonical IDs a lookup after a write keyed by `str(id)` sees the earlier record with the field overwritten |
| Sheet.StoreOverwritesDecided | services/google_sheets.py:139-144 | a decided record's status is overwritten like any other (no pending check) |
| Sheet.Appended | services/google_sheets.py:97-98 | the append keeps every existing row and adds `[id, text, 0, "pending", date]` at the end |
| Sheet.AppendKeepsCanonical | services/google_sheets.py:97 | appending a row whose ID is `str` of an integer keeps the ID cells canonical |
| Sheet.NextIdIsFresh | services/google_sheets.py:117-118 | the allocated id is matched by no existing row, numerically or as text |
| Sheet.LookupAfterAdd | test_sheets.py:39-51 | after an added problem, looking its id up gives the added row |
| Sheet.NextIdAfterAdd | services/google_sheets.py:117-118 | the id allocated after an add is one more than the id the add received |
| Sheet.ReadFaultReusesOne | services/google_sheets.py:120-122 | after a failed ID read a second record also gets id 1, and the lookup of 1 finds the first one |
| Sheet.Having | services/google_sheets.py:214-219 | the records with exactly the given status: every such record and nothing else |
| Sheet.HavingAppend | services/google_sheets.py:215-218 | the filter distributes over concatenation, so the result keeps table order |
| Sheet.StatusCountsBounded | handlers/moderation.py:208-211 | the pending, approved and rejected counts together are at most the number of records |
| Sheet.RecordText | handlers/moderation.py:102 | the text a record hands on is the cell's own text, whenever that text is not an integer or is canonical |
| Sheet.HasLiked | services/google_sheets.py:323-345 | false on a failed read or a missing record; otherwise membership of the voter in the parsed ledger |
| Sheet.Toggled | services/google_sheets.py:236-283 | a failed read or a missing record gives `(None, False)` and no change; otherwise the size of the toggled set and whether the vote was added, with every ID cell kept |
| Sheet.WriteCountAndLedger | services/google_sheets.py:270-276 | the two writes keep the number of rows and every ID cell |
| Sheet.CountAndLedgerWritten | services/google_sheets.py:270-276 | with canonical IDs both writes land on the record the lookup finds, setting its count and ledger |
| Sheet.ToggleWrites | services/google_sheets.py:267-276 | a fault-free toggle leaves the record with the toggled set's size as its likes and its serialisation as its ledger |
| Sheet.LedgerAfterToggle | services/google_sheets.py:246-276 | after a fault-free toggle the ledger reads back as the toggled set and the likes equal its size |
| Sheet.HasLikedAfterToggle | services/google_sheets.py:312-345 | right after a toggle, `has_user_liked` for the same voter answers the toggle's `was_added` |
| Sheet.ToggleTwiceRestores | services/google_sheets.py:238-279 | two toggles by the same voter restore the parsed ledger and set the likes to its size, with opposite flags |
| Sheet.FailedLedgerWriteIsUnreported | services/google_sheets.py:276-279 | when the ledger write fails the new count is still reported and written, while the ledger keeps the old voters |
| RecordStore.SecondWriteSameRow | services/google_sheets.py:270-276 | the second writer of a toggle targets the same row as the first |
| RecordStore.HeaderIsNoId | services/google_sheets.py:137-140 | the header cell is never `str` of an id, so no writer targets sheet row 1 |
| RecordStore.Worksheet.LocateRow | services/google_sheets.py:137-140 | the scan returns the 1-based sheet row of the first ID cell equal to the key (a data row), or none |
| RecordStore.Worksheet.UpdateCell | services/google_sheets.py:142 | `update_cell` changes exactly that field of that row and logs one cell write |
| RecordStore.Worksheet.WriteField | services/google_sheets.py:135-151 | True exactly when the call does not raise and a row matches; the rows become `SetField` of the old rows, or stay as they were when it raises |
| RecordStore.Worksheet.UpdateStatus | services/google_sheets.py:124-151 | column 4 of the first matching row is overwritten, with no check of the current status; the result says whether a row matched |
| RecordStore.Worksheet.UpdateLikes | services/google_sheets.py:153-180 | column 3 of the first matching row is overwritten; the result says whether a row matched |
| RecordStore.Worksheet.UpdateLikedUsers | services/google_sheets.py:285-310 | column 6 of the first matching row is overwritten with the ledger text; the result says whether a row matched |
| RecordStore.Worksheet.NextFreeId | services/google_sheets.py:107-122 | the allocated id is `NextId` of the ID cells below the header, after one column read |
| RecordStore.Worksheet.AddProblem | services/google_sheets.py:78-105 | appends one pending row under the allocated id and returns that id; nothing changes when the append raises; canonical IDs stay canonical |
| RecordStore.Worksheet.GetProblemById | services/google_sheets.py:182-204 | the first record whose ID value equals the id, or none; none on a failed read |
| RecordStore.Worksheet.GetPendingProblems | services/google_sheets.py:206-223 | exactly the pending records in table order, or `[]` on a failed read |
| RecordStore.Worksheet.AllRecords | handlers/moderation.py:206 | every record, or none when the read raises |
| RecordStore.Worksheet.HasUserLiked | services/google_sheets.py:312-349 | the answer is `HasLiked` of the current rows, after one records read |
| RecordStore.Worksheet.ToggleVoter | services/google_sheets.py:243-265 | the parsed voter set of the cell, toggled, with the flag saying whether the vote was added |
| RecordStore.Worksheet.WriteCountAndLedgerCells | services/google_sheets.py:269-276 | both writes are sent to the row the ID column shows; failures are dropped; canonical IDs stay canonical |
| RecordStore.Worksheet.ToggleLike | services/google_sheets.py:225-283 | the new rows, count and flag are those of `Toggled` on the old rows, with its exact requests; canonical IDs stay canonical |
| Outbox.CallbackId | handlers/moderation.py:89 | a parsed id is `int()` of the second `_`-separated part |
| Outbox.CallbackRoundTrip | handlers/moderation.py:37-41 | the id read back from `<prefix>_<id>` is the id the data was built from |
| Outbox.Bot.Send | handlers/moderation.py:49-58 | one send is logged; it is delivered exactly when the chat is reachable |
| Channel.ButtonFor | handlers/channel.py:91-102 | the button reads "Убрать лайк (n)" exactly when the user has liked, shows the count, and its data reads back as the id |
| Channel.FormatForChannel | handlers/channel.py:155-186 | the post shows the id, the text and the count (0 by default), with a "Лайк" button carrying the same count and the id |
| Channel.UpdateChannelMessage | handlers/channel.py:63-117 | one ledger read, then one edit of the post with the button matching `has_user_liked` |
| Channel.ReportVote | handlers/channel.py:46-52 | the post is edited, then the answer says whether the like was added or removed, with the count |
| Channel.PressOnFound | handlers/channel.py:40-56 | the press performs `FoundOutcome`: a toggle, then an edit and answer, or the error answer when the toggle returned no count |
| Channel.HandleLike | handlers/channel.py:19-60 | the whole handler performs `LikeOutcome` on the rows, the request log and the bot log |
| Channel.LikeOnMissingProblem | handlers/channel.py:33-37 | a press on a missing problem only looks it up and answers "not found" |
| Channel.FailedToggleNoEdit | handlers/channel.py:55-56 | a toggle with no count gives only the error answer, with no edit and no change |
| Channel.LikePressConsistent | handlers/channel.py:40-52 | after a fault-free press the edit and the answer both show the new ledger size, and the button offers "Убрать лайк" exactly when the like was added |
| Channel.FirstMaxIndex | handlers/channel.py:139 | the position `max(..., key=likes)` picks: likes at least every record's, and strictly above every earlier record's |
| Channel.ProblemStats | handlers/channel.py:130-146 | the total is the number of records, the approved count and the total likes cover approved records only, and the most liked is absent exactly when none is approved, and otherwise the first approved record whose likes are at least every approved record's |
| Channel.StatsIgnoreUnapproved | handlers/channel.py:134-136 | a record that is not approved changes only the total |
| Channel.StatsCountApproved | handlers/channel.py:135-136 | an approved record adds one to the approved count and its likes to the total likes |
| Channel.ProblemStatsOf | handlers/channel.py:120-152 | the statistics of the current records, or none (`{}`) when the read raises |
| Moderation.Recipients | handlers/moderation.py:45-46 | the given moderators, or `[719991464]` when the list is missing or empty |
| Moderation.CardButtonsCarryId | handlers/moderation.py:33-44 | both buttons of a moderation card read back as the card's id |
| Moderation.SendToModerators | handlers/moderation.py:45-58 | one send per recipient, in list order; a failed send is logged and the rest still go out |
| Moderation.Publication | handlers/moderation.py:164-182 | the channel post shows count 0 and a "Лайк (0)" button whose data reads back as the id, whatever the stored likes |
| Moderation.PublicationIsChannelFormat | handlers/moderation.py:166-182 | the published post is the channel formatter's post with its default count |
| Moderation.PublishToChannel | handlers/moderation.py:154-195 | exactly one send of the publication to the channel, with a failure caught |
| Moderation.PublishApproved | handlers/moderation.py:94-113 | after a successful status write: read the record back, then publish, answer and edit, or answer "data missing" |
| Moderation.ModerateButton | handlers/moderation.py:87-151 | the approve and reject buttons perform `ButtonOutcome` on the rows, the request log and the bot log |
| Moderation.ButtonIgnoresStatus | handlers/moderation.py:92 | a fault-free button press sets the verdict's status on the record, whatever status it had |
| Moderation.RejectButtonNeverPublishes | handlers/moderation.py:131-151 | the reject button never sends anything |
| Moderation.ApproveButtonPublishesOnlyAfterWrite | handlers/moderation.py:89-115 | the approve button sends only if the id parsed, `update_status` returned True, the record was found again and the channel id is an integer; the post comes first, shows the record read back, and is the only send |
| Moderation.CommandTarget | handlers/moderation.py:262-271 | missing argument exactly when there are fewer than two words; a target exactly when the second word is an integer, and then it is that integer |
| Moderation.CommandTargetOf | handlers/moderation.py:262-268 | `"<command> <id>"` targets id, and a bare command has no argument |
| Moderation.DecidePending | handlers/moderation.py:282-288 | for a pending record the command performs `PendingOutcome`: status write, then publication and confirmation, or the failure answer |
| Moderation.ModerateCommand | handlers/moderation.py:258-328 | `/approve` and `/reject` perform `CommandOutcome` on the rows, the request log and the bot log |
| Moderation.CommandArgumentErrors | handlers/moderation.py:262-271 | a usage or number error answers accordingly and neither reads nor writes the sheet |
| Moderation.CommandLeavesDecided | handlers/moderation.py:273-280 | on a missing or decided record the command only reads, answering "not found" or "already processed" |
| Moderation.CommandDecidesPending | handlers/moderation.py:282-288 | a fault-free command on a pending record sets its status and confirms, publishing on approval |
| Moderation.SecondDecision | handlers/moderation.py:278 | once a command has decided a record, a second command is refused and changes nothing, while a button press still overwrites the decision |
| Moderation.SecondCommandIsRefused | handlers/moderation.py:315-317 | a command on an approved or rejected record is answered "already processed" and changes nothing |
| Moderation.AfterCommandCanonical | handlers/moderation.py:282 | a command keeps the ID cells canonical |
| Moderation.StatsFor | handlers/moderation.py:208-211 | the total and the number of records with each exact status; the three together are at most the total |
| Moderation.ModerationStats | handlers/moderation.py:198-226 | one records read, then the counts, or the error answer when the read raises |
| Moderation.Preview | handlers/moderation.py:242 | the text itself up to 100 characters; otherwise its first 100 characters followed by `...` |
| Moderation.BuildListing | handlers/moderation.py:239-243 | the loop builds the header followed by one entry per pending record, in order |
| Moderation.Slices | handlers/moderation.py:246-251 | consecutive slices that join back to the text, each at most 4000 characters, all but the last exactly 4000, and the text itself when it is short enough |
| Moderation.PartAnswers | handlers/moderation.py:248-249 | one answer per part, in order |
| Moderation.ShowPending | handlers/moderation.py:229-255 | one read of the pending records, then "nothing pending" or the listing in parts |
| Moderation.AnswerParts | handlers/moderation.py:248-251 | the loop answers every part in order |
| Moderation.PendingReplyIsListing | handlers/moderation.py:246-251 | the reply's parts join to the whole listing and each is at most 4000 characters |
| Moderation.EntryAsWrittenAgrees | handlers/moderation.py:242 | for a text that is not an integer the entry the code builds is the modelled entry |
| Moderation.NumericTextBreaksListing | handlers/moderation.py:242 | a pending problem whose text is an integer's text turns the code's whole reply into the error answer, while the corrected reply lists it |
| Intake.Screen | handlers/user.py:46-62 | messages from the moderators' chat are ignored; otherwise the stripped text is refused when empty or over 1000 characters and accepted otherwise (each case exactly) |
| Intake.Fanout | handlers/user.py:82 | one card per recipient, delivered exactly when the recipient is reachable |
| Intake.Notify | handlers/user.py:80-82 | `int(mod_chat_id)` raising gives the retry answer; otherwise the cards go to the moderators |
| Intake.StoreAndNotify | handlers/user.py:65-91 | one append, then the confirmation with the new id and the cards; a failed append gives only the retry answer |
| Intake.HandleTextMessage | handlers/user.py:38-91 | the handler performs `IntakeOutcome` on the rows, the request log and the bot log |
| Intake.IntakeKeepsTextsInBounds | handlers/user.py:50-65 | every stored text stays between 1 and 1000 characters long |
| Intake.OnlyAcceptedTextIsStored | handlers/user.py:46-62 | the sheet is touched exactly when the text is accepted, and changed only when the append succeeds |
| Intake.IntakeAddsPendingRecord | handlers/user.py:65-82 | a fault-free intake adds one pending record under a fresh id, confirms that id first and sends one card per recipient |
| Intake.ModeratorChatIgnored | handlers/user.py:46-47 | a message from the moderators' chat does nothing at all |
| Scenarios.StoreScript | test_sheets.py:39-71 | add, read back, approve and set likes to 5 all succeed on a fault-free sheet, leaving the record approved with 5 likes |
| Scenarios.PressLike | handlers/channel.py:40-43 | one fault-free press reports whether the vote was added and the new count, and the ledger becomes the toggled set |
| Scenarios.LikeTwice | services/google_sheets.py:238-279 | the first press adds the vote exactly when the user had not voted, the second press undoes it and reports the original count, and `has_user_liked` is then as before |
| Scenarios.ApproveCommandOnPending | handlers/moderation.py:258-292 | `/approve <id>` on a pending record publishes it, confirms, and leaves it approved |
| Scenarios.RejectCommandOnDecided | handlers/moderation.py:310-317 | `/reject <id>` on a decided record is answered "already processed" and writes nothing |
| Scenarios.ApproveThenReject | handlers/moderation.py:278-316 | `/approve` then `/reject` on a pending record: one publication, two answers, and the record stays approved |

## Left out

- Network and Telegram I/O, async/await and the interleaving of concurrent handlers are not modelled. Two concurrent toggles can lose an update; the model is sequential.
- A raising call is a boolean input, not a nondeterministic event. `bot.answer` and `message.edit_text` are taken to succeed; only sends can fail.
- The message bodies are not modelled: Markdown, emoji and exact wording. A reply is a `Notice` carrying the values it shows. The `/pending` listing is the exception: its text is modelled, because its length decides how it is split.
- A Markdown parse error Telegram could raise on a user's text is not modelled.
- `main.py` (start-up, the order in which routers are tried), `middleware.py` and `utils/get_ids.py` are not part of this model. `start_command` and `handle_other_messages` are constant replies and are left out.
- Nothing in the repository passes `moderator_ids`, which `handle_text_message` requires: the middleware built in `main.py` supplies only the sheet service, the channel id, the moderators' chat id and the bot. The model takes it as an `Option<seq<int>>` input, as if the wiring supplied it, with `None` standing for a missing list and so for the fallback moderator.
- `_connect` and `_setup_headers` are left out. The header written by `_setup_headers` lists five columns, while the ledger is read by name and written to column 6. The model keeps the ledger as a field of every row.
- `datetime.now()` is a `createdAt` input string.
- Logging is left out.
- VoterLedger.Numericise: converts only text that Python's `int()` accepts as an optional sign followed by ASCII digits. The record reader also turns decimal fractions such as `"1.5"` into floats, and `int()` also accepts surrounding whitespace, `_` separators and non-ASCII digits. None of these are modelled.
- PyText.Strip: strips the ASCII characters `str.isspace()` accepts (space, tab, line feed, carriage return, vertical tab, form feed and U+001C to U+001F) but not non-ASCII whitespace such as U+00A0 or U+2028, which Python's `strip()` also removes.
- PyText.Words: splits on the same ASCII whitespace only; Python's `split()` also splits on non-ASCII whitespace, so `/approve\u00a012` is one word here.
- Decimal.ParseInt: accepts an optional sign and ASCII digits only. `int()` also accepts surrounding whitespace, so a configured channel or moderators' chat id such as `" -100123"` is read by the source (handlers/moderation.py:101, handlers/user.py:82) but gives the error path here. It also accepts `_` digit separators, so `/approve 1_0` targets problem 10 in the source but is a number error here. Unicode digits are not modelled either; in the ledger filter a token such as `"²"` passes `isdigit()` and then makes `int()` raise.
- Channel.ProblemStats: every row's Likes value is an integer here, so the `int()` of the likes cannot raise. A hand-edited non-numeric likes cell, which makes `get_problem_stats` return `{}`, is not modelled.
- `update_cell` writes values as user-entered input. The model stores the value as given and does not re-interpret it.

## Findings

| source | as written | input that shows it | evidently intended | confidence | as-written member | corrected member |
|---|---|---|---|---|---|---|
| handlers/moderation.py:242 | each `/pending` entry slices the record's text value and takes its length. The record reader hands a text that looks like an integer over as an `int`, so slicing raises `TypeError`, and the whole reply becomes the error answer | a pending problem whose text is `42` (any integer text; proved for every integer) | list the problem with its text shown as text (`str` of the value), like every other entry; `Moderation.PendingReplyIsListing` proves the corrected reply is the whole listing in parts of at most 4000 characters | not executed | Moderation.NumericTextBreaksListing | Moderation.ShowPending |
