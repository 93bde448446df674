/**
 * Problem intake (handlers/user.py): a user's text message is screened,
 * stored as a new pending record, confirmed to the user and sent to the
 * moderators.
 */
module Intake {
  import opened Wrappers
  import opened Decimal
  import opened PyText
  import opened Sheet
  import opened RecordStore
  import opened Outbox
  import opened Moderation

  /** The longest problem text accepted, in characters. */
  const MaxLength: nat := 1000

  /** How a text message is screened before anything is stored. */
  datatype Screening = Ignored | EmptyText | Overlong | Accepted(text: string)

  /**
   * Messages from the moderators' chat are ignored; otherwise the stripped
   * text must be non-empty and at most 1000 characters long.
   */
  function Screen(chatId: int, modChatId: string, raw: string): (s: Screening)
    ensures s.Ignored? <==> IntToString(chatId) == modChatId
    ensures s.EmptyText? <==> IntToString(chatId) != modChatId && AllSpace(raw)
    ensures s.Overlong? <==> IntToString(chatId) != modChatId && |Strip(raw)| > MaxLength
    ensures s.Accepted? <==> IntToString(chatId) != modChatId && 0 < |Strip(raw)| <= MaxLength
    ensures s.Accepted? ==> s.text == Strip(raw) && !IsSpace(s.text[0]) && !IsSpace(s.text[|s.text| - 1])
  {
    if IntToString(chatId) == modChatId then Ignored
    else
      var text := Strip(raw);
      if text == [] then EmptyText
      else if |text| > MaxLength then Overlong
      else Accepted(text)
  }

  /** The cards of a new problem, one per recipient. */
  function Fanout(recipients: seq<int>, id: int, text: string, unreachable: set<int>): (r: seq<Effect>)
    ensures |r| == |recipients|
    ensures forall i :: 0 <= i < |recipients| ==> r[i] == Sent(recipients[i], Card(id, text), recipients[i] !in unreachable)
  {
    seq(|recipients|, i requires 0 <= i < |recipients| => Sent(recipients[i], Card(id, text), recipients[i] !in unreachable))
  }

  /** What `handle_text_message` does once the text was accepted. */
  function StoreOutcome(text: string, createdAt: string, modChatId: string, moderatorIds: Option<seq<int>>,
                        rows: seq<Row>, unreachable: set<int>, idReadFails: bool, appendFails: bool): Outcome
  {
    if appendFails then Outcome(rows, [ColumnRead, RowAppend], [Answered(SaveFailed)])
    else
      var n := NextId(IdCells(rows), idReadFails);
      var after := Appended(rows, n, text, createdAt);
      Outcome(after, [ColumnRead, RowAppend], [Answered(Received(n))] + Notified(n, text, modChatId, moderatorIds, unreachable))
  }

  /** After the confirmation: `int(mod_chat_id)` raises when it is not an integer, else the cards go out. */
  function Notified(id: int, text: string, modChatId: string, moderatorIds: Option<seq<int>>, unreachable: set<int>): seq<Effect>
  {
    if ParseInt(modChatId).None? then [Answered(SaveFailed)]
    else Fanout(Recipients(moderatorIds), id, text, unreachable)
  }

  method Notify(id: int, text: string, modChatId: string, moderatorIds: Option<seq<int>>, bot: Bot)
    modifies bot
    ensures bot.out == old(bot.out) + Notified(id, text, modChatId, moderatorIds, bot.unreachable)
  {
    var modChat := ParseInt(modChatId);
    if modChat.None? {
      bot.Answer(SaveFailed);
      return;
    }
    SendToModerators(bot, id, text, moderatorIds);
    assert bot.out[|old(bot.out)|..] == Fanout(Recipients(moderatorIds), id, text, bot.unreachable);
    assert bot.out == bot.out[..|old(bot.out)|] + bot.out[|old(bot.out)|..];
  }

  /** What `handle_text_message` does with a message `raw` from chat `chatId`. */
  function IntakeOutcome(chatId: int, raw: string, createdAt: string, modChatId: string, moderatorIds: Option<seq<int>>,
                         rows: seq<Row>, unreachable: set<int>, idReadFails: bool, appendFails: bool): Outcome
  {
    match Screen(chatId, modChatId, raw)
    case Ignored => Outcome(rows, [], [])
    case EmptyText => Outcome(rows, [], [Answered(SendText)])
    case Overlong => Outcome(rows, [], [Answered(TooLongText)])
    case Accepted(text) => StoreOutcome(text, createdAt, modChatId, moderatorIds, rows, unreachable, idReadFails, appendFails)
  }

  /** Store the accepted text, confirm it, and send it to the moderators. */
  method StoreAndNotify(text: string, createdAt: string, modChatId: string, moderatorIds: Option<seq<int>>,
                        sheet: Worksheet, bot: Bot, idReadFails: bool, appendFails: bool)
    modifies sheet, bot
    ensures var o := StoreOutcome(text, createdAt, modChatId, moderatorIds, old(sheet.rows), bot.unreachable, idReadFails, appendFails);
      sheet.rows == o.rows && sheet.requests == old(sheet.requests) + o.requests && bot.out == old(bot.out) + o.effects
  {
    var id := sheet.AddProblem(text, createdAt, idReadFails, appendFails);
    if id.None? {
      bot.Answer(SaveFailed);
      return;
    }
    bot.Answer(Received(id.value));
    Notify(id.value, text, modChatId, moderatorIds, bot);
    AppendAssoc(old(bot.out), [Answered(Received(id.value))], Notified(id.value, text, modChatId, moderatorIds, bot.unreachable));
  }

  /** `handle_text_message`. */
  method HandleTextMessage(chatId: int, raw: string, createdAt: string, modChatId: string, moderatorIds: Option<seq<int>>,
                           sheet: Worksheet, bot: Bot, idReadFails: bool, appendFails: bool)
    modifies sheet, bot
    ensures var o := IntakeOutcome(chatId, raw, createdAt, modChatId, moderatorIds, old(sheet.rows), bot.unreachable, idReadFails, appendFails);
      sheet.rows == o.rows && sheet.requests == old(sheet.requests) + o.requests && bot.out == old(bot.out) + o.effects
  {
    var screening := Screen(chatId, modChatId, raw);
    ghost var o := IntakeOutcome(chatId, raw, createdAt, modChatId, moderatorIds, sheet.rows, bot.unreachable, idReadFails, appendFails);
    match screening
    case Ignored =>
      assert o == Outcome(sheet.rows, [], []);
    case EmptyText =>
      assert o == Outcome(sheet.rows, [], [Answered(SendText)]);
      bot.Answer(SendText);
    case Overlong =>
      assert o == Outcome(sheet.rows, [], [Answered(TooLongText)]);
      bot.Answer(TooLongText);
    case Accepted(text) =>
      assert o == StoreOutcome(text, createdAt, modChatId, moderatorIds, sheet.rows, bot.unreachable, idReadFails, appendFails);
      StoreAndNotify(text, createdAt, modChatId, moderatorIds, sheet, bot, idReadFails, appendFails);
  }

  /** Every stored text is non-empty and at most 1000 characters long. */
  predicate TextsInBounds(rows: seq<Row>)
  {
    forall i :: 0 <= i < |rows| ==> 0 < |rows[i].text| <= MaxLength
  }

  /** Intake keeps every stored text within bounds. */
  lemma IntakeKeepsTextsInBounds(chatId: int, raw: string, createdAt: string, modChatId: string, moderatorIds: Option<seq<int>>,
                                 rows: seq<Row>, unreachable: set<int>, idReadFails: bool, appendFails: bool)
    requires TextsInBounds(rows)
    ensures TextsInBounds(IntakeOutcome(chatId, raw, createdAt, modChatId, moderatorIds, rows, unreachable, idReadFails, appendFails).rows)
  {
    var o := IntakeOutcome(chatId, raw, createdAt, modChatId, moderatorIds, rows, unreachable, idReadFails, appendFails);
    if Screen(chatId, modChatId, raw).Accepted? && !appendFails {
      var text := Strip(raw);
      var n := NextId(IdCells(rows), idReadFails);
      assert o.rows == Appended(rows, n, text, createdAt);
      forall i | 0 <= i < |o.rows| ensures 0 < |o.rows[i].text| <= MaxLength {
        if i < |rows| {
          assert o.rows[i] == rows[i];
        }
      }
    }
  }

  /** Only an accepted text reaches the sheet; every other message neither reads nor writes it. */
  lemma OnlyAcceptedTextIsStored(chatId: int, raw: string, createdAt: string, modChatId: string, moderatorIds: Option<seq<int>>,
                                 rows: seq<Row>, unreachable: set<int>, idReadFails: bool, appendFails: bool)
    ensures var o := IntakeOutcome(chatId, raw, createdAt, modChatId, moderatorIds, rows, unreachable, idReadFails, appendFails);
      (o.requests != [] <==> Screen(chatId, modChatId, raw).Accepted?) &&
      (o.rows != rows ==> Screen(chatId, modChatId, raw).Accepted? && !appendFails)
  {
  }

  /**
   * A fault-free intake adds one pending record under a fresh id, confirms
   * that id to the user and sends one card per recipient.
   */
  lemma IntakeAddsPendingRecord(chatId: int, raw: string, createdAt: string, modChatId: string, moderatorIds: Option<seq<int>>,
                                rows: seq<Row>, unreachable: set<int>)
    requires IdsCanonical(rows) && Screen(chatId, modChatId, raw).Accepted? && ParseInt(modChatId).Some?
    ensures var n := NextId(IdCells(rows), false);
      var o := IntakeOutcome(chatId, raw, createdAt, modChatId, moderatorIds, rows, unreachable, false, false);
      Lookup(rows, n) == None &&
      Lookup(o.rows, n) == Some(Row(IntToString(n), Strip(raw), 0, Pending, createdAt, "")) &&
      IdsCanonical(o.rows) &&
      |o.effects| == 1 + |Recipients(moderatorIds)| && o.effects[0] == Answered(Received(n))
  {
    NextIdIsFresh(rows);
    LookupAfterAdd(rows, Strip(raw), createdAt);
    AppendKeepsCanonical(rows, NextId(IdCells(rows), false), Strip(raw), createdAt);
  }

  /** A message from the moderators' chat is ignored entirely. */
  lemma ModeratorChatIgnored(chatId: int, raw: string, createdAt: string, moderatorIds: Option<seq<int>>,
                             rows: seq<Row>, unreachable: set<int>, idReadFails: bool, appendFails: bool)
    ensures IntakeOutcome(chatId, raw, createdAt, IntToString(chatId), moderatorIds, rows, unreachable, idReadFails, appendFails)
      == Outcome(rows, [], [])
  {
  }
}
