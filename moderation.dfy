/**
 * Moderation (handlers/moderation.py): the fan-out of a new problem to the
 * moderators, the approve/reject buttons and commands, publication to the
 * channel, and the /modstats and /pending replies.
 */
module Moderation {
  import opened Wrappers
  import opened Decimal
  import opened PyText
  import opened VoterLedger
  import opened Sheet
  import opened RecordStore
  import opened Outbox
  import Channel

  // ---------------------------------------------------------------------
  // send_to_moderators
  // ---------------------------------------------------------------------

  /** The moderator used when no moderator list is supplied. */
  const FallbackModerator: int := 719991464

  /** The chats a new problem goes to: the given moderators, or the fallback when there are none. */
  function Recipients(moderatorIds: Option<seq<int>>): (r: seq<int>)
    ensures |r| > 0
    ensures moderatorIds.Some? && moderatorIds.value != [] ==> r == moderatorIds.value
    ensures moderatorIds.None? || moderatorIds.value == [] ==> r == [FallbackModerator]
  {
    if moderatorIds.None? || moderatorIds.value == [] then [FallbackModerator] else moderatorIds.value
  }

  /** The moderation card: the problem with an approve and a reject button. */
  function Card(id: int, text: string): Content
  {
    ModerationCard(id, text, CallbackData("approve", id), CallbackData("reject", id))
  }

  /** Both buttons of a card lead back to the card's problem. */
  lemma CardButtonsCarryId(id: int, text: string)
    ensures CallbackId(Card(id, text).approveData) == Some(id)
    ensures CallbackId(Card(id, text).rejectData) == Some(id)
  {
    CallbackRoundTrip("approve", id);
    CallbackRoundTrip("reject", id);
  }

  /**
   * `send_to_moderators`: one send per recipient, in list order; a failed
   * send is logged as undelivered and the loop goes on. The moderators'
   * group chat is not sent to.
   */
  method SendToModerators(bot: Bot, problemId: int, text: string, moderatorIds: Option<seq<int>>)
    modifies bot
    ensures var r := Recipients(moderatorIds);
      |bot.out| == |old(bot.out)| + |r| && bot.out[..|old(bot.out)|] == old(bot.out) &&
      forall i :: 0 <= i < |r| ==>
        bot.out[|old(bot.out)| + i] == Sent(r[i], Card(problemId, text), r[i] !in bot.unreachable)
  {
    var recipients := Recipients(moderatorIds);
    var i := 0;
    while i < |recipients|
      invariant 0 <= i <= |recipients|
      invariant |bot.out| == |old(bot.out)| + i && bot.out[..|old(bot.out)|] == old(bot.out)
      invariant forall j :: 0 <= j < i ==>
        bot.out[|old(bot.out)| + j] == Sent(recipients[j], Card(problemId, text), recipients[j] !in bot.unreachable)
    {
      var _ := bot.Send(recipients[i], Card(problemId, text));
      i := i + 1;
    }
  }

  // ---------------------------------------------------------------------
  // publish_to_channel
  // ---------------------------------------------------------------------

  /** The channel post of a newly approved problem: count 0 and a "Лайк (0)" button, whatever the stored likes. */
  function Publication(id: int, text: string): (c: Content)
    ensures c.ChannelPost? && c.count == 0 && c.button.caption == Like(0)
    ensures CallbackId(c.button.data) == Some(id)
  {
    CallbackRoundTrip("like", id);
    ChannelPost(id, text, 0, Button(Like(0), CallbackData("like", id)))
  }

  /** The post published on approval is the one the channel formatter builds with its default count. */
  lemma PublicationIsChannelFormat(id: int, text: string)
    ensures Publication(id, text) == Channel.FormatForChannel(id, text)
  {
  }

  /** `publish_to_channel`: one send to the channel; a failure is caught. */
  method PublishToChannel(bot: Bot, channel: int, id: int, text: string)
    modifies bot
    ensures bot.out == old(bot.out) + [Sent(channel, Publication(id, text), channel !in bot.unreachable)]
  {
    var _ := bot.Send(channel, Publication(id, text));
  }

  // ---------------------------------------------------------------------
  // Approve and reject
  // ---------------------------------------------------------------------

  datatype Verdict = Approve | Reject

  function StatusOf(v: Verdict): string
  {
    match v
    case Approve => Approved
    case Reject => Rejected
  }

  /** The table after `update_status(id, StatusOf(v))`. */
  function Decided(rows: seq<Row>, id: int, v: Verdict, writeFails: bool): seq<Row>
  {
    if writeFails then rows else SetField(rows, IntToString(id), StatusField(StatusOf(v)))
  }

  /** Did `update_status(id, ...)` return True? */
  predicate Updated(rows: seq<Row>, id: int, writeFails: bool)
  {
    !writeFails && FirstIdRow(rows, IntToString(id)).Some?
  }

  /** The publication step of an approval: `int(channel_id)` raises before anything is sent when it is not an integer. */
  function Published(channelId: string, id: int, row: Row, unreachable: set<int>, after: seq<Effect>): seq<Effect>
  {
    match ParseInt(channelId)
    case None => [Answered(SomethingWentWrong)]
    case Some(c) => [Sent(c, Publication(id, RecordText(row)), c !in unreachable)] + after
  }

  /**
   * What `approve_problem` / `reject_problem` do for a button press with
   * callback data `data`: write the status with no pending check; the
   * approval then reads the record back and publishes it.
   */
  function ButtonOutcome(v: Verdict, data: string, channelId: string, rows: seq<Row>, unreachable: set<int>,
                         writeFails: bool, readFails: bool): Outcome
  {
    match CallbackId(data)
    case None => Outcome(rows, [], [Answered(SomethingWentWrong)])
    case Some(id) =>
      var written := Decided(rows, id, v, writeFails);
      var requests := WriterRequests(rows, id, StatusField(StatusOf(v)), writeFails);
      if !Updated(rows, id, writeFails) then Outcome(written, requests, [Answered(StatusUpdateFailed)])
      else match v
        case Reject => Outcome(written, requests, [Answered(RejectedByButton), Edited(Plain(RejectedCard(id)))])
        case Approve =>
          if readFails || Lookup(written, id).None? then
            Outcome(written, requests + [RecordsRead], [Answered(ProblemDataMissing)])
          else
            Outcome(written, requests + [RecordsRead],
              Published(channelId, id, Lookup(written, id).value, unreachable,
                [Answered(ApprovedAndPublished), Edited(Plain(ApprovedCard(id)))]))
  }

  /** The approval's tail once the status write succeeded: read back, publish, confirm. */
  method PublishApproved(id: int, channelId: string, sheet: Worksheet, bot: Bot, readFails: bool)
    modifies sheet`requests, bot
    ensures sheet.requests == old(sheet.requests) + [RecordsRead]
    ensures bot.out == old(bot.out) +
      if readFails || Lookup(sheet.rows, id).None? then [Answered(ProblemDataMissing)]
      else Published(channelId, id, Lookup(sheet.rows, id).value, bot.unreachable,
        [Answered(ApprovedAndPublished), Edited(Plain(ApprovedCard(id)))])
  {
    var record := sheet.GetProblemById(id, readFails);
    if record.None? {
      bot.Answer(ProblemDataMissing);
      return;
    }
    var channel := ParseInt(channelId);
    if channel.None? {
      bot.Answer(SomethingWentWrong);
      return;
    }
    ghost var start := bot.out;
    PublishToChannel(bot, channel.value, id, RecordText(record.value));
    bot.Answer(ApprovedAndPublished);
    bot.Edit(Plain(ApprovedCard(id)));
    assert bot.out == start + ([Sent(channel.value, Publication(id, RecordText(record.value)), channel.value !in bot.unreachable)]
      + [Answered(ApprovedAndPublished), Edited(Plain(ApprovedCard(id)))]);
  }

  /** `approve_problem` (v = Approve) and `reject_problem` (v = Reject), the inline-button handlers. */
  method ModerateButton(v: Verdict, data: string, channelId: string, sheet: Worksheet, bot: Bot, writeFails: bool, readFails: bool)
    modifies sheet, bot
    ensures var o := ButtonOutcome(v, data, channelId, old(sheet.rows), bot.unreachable, writeFails, readFails);
      sheet.rows == o.rows && sheet.requests == old(sheet.requests) + o.requests && bot.out == old(bot.out) + o.effects
  {
    var parsed := CallbackId(data);
    if parsed.None? {
      bot.Answer(SomethingWentWrong);
      return;
    }
    var id := parsed.value;
    var ok := sheet.UpdateStatus(id, StatusOf(v), writeFails);
    if !ok {
      bot.Answer(StatusUpdateFailed);
      return;
    }
    if v == Reject {
      bot.Answer(RejectedByButton);
      bot.Edit(Plain(RejectedCard(id)));
      return;
    }
    ghost var written := sheet.requests;
    PublishApproved(id, channelId, sheet, bot, readFails);
    AppendAssoc(old(sheet.requests), WriterRequests(old(sheet.rows), id, StatusField(StatusOf(v)), writeFails), [RecordsRead]);
  }

  /**
   * A button press writes the verdict over whatever status the record
   * had: a decided record is decided again.
   */
  lemma ButtonIgnoresStatus(v: Verdict, data: string, channelId: string, rows: seq<Row>, unreachable: set<int>, readFails: bool)
    requires IdsCanonical(rows) && CallbackId(data).Some?
    requires Lookup(rows, CallbackId(data).value).Some?
    ensures var id := CallbackId(data).value;
      var o := ButtonOutcome(v, data, channelId, rows, unreachable, false, readFails);
      Lookup(o.rows, id) == Some(Lookup(rows, id).value.(status := StatusOf(v)))
  {
    var id := CallbackId(data).value;
    SameRowFound(rows, id);
    LookupAfterWrite(rows, id, StatusField(StatusOf(v)));
  }

  /** The reject button never publishes. */
  lemma RejectButtonNeverPublishes(data: string, channelId: string, rows: seq<Row>, unreachable: set<int>, writeFails: bool, readFails: bool)
    ensures var o := ButtonOutcome(Reject, data, channelId, rows, unreachable, writeFails, readFails);
      forall e :: e in o.effects ==> !e.Sent?
  {
  }

  /**
   * The approve button publishes only when the status write returned True,
   * the record was then found and the channel id is an integer; the post
   * is the first effect, it shows the record read back with count 0, and
   * there is no other.
   */
  lemma ApproveButtonPublishesOnlyAfterWrite(data: string, channelId: string, rows: seq<Row>, unreachable: set<int>,
                                             writeFails: bool, readFails: bool)
    ensures var o := ButtonOutcome(Approve, data, channelId, rows, unreachable, writeFails, readFails);
      (exists i :: 0 <= i < |o.effects| && o.effects[i].Sent?) ==>
        CallbackId(data).Some? && Updated(rows, CallbackId(data).value, writeFails) && !readFails &&
        Lookup(o.rows, CallbackId(data).value).Some? && ParseInt(channelId).Some? &&
        o.effects[0] == Sent(ParseInt(channelId).value,
          Publication(CallbackId(data).value, RecordText(Lookup(o.rows, CallbackId(data).value).value)),
          ParseInt(channelId).value !in unreachable) &&
        forall i :: 0 < i < |o.effects| ==> !o.effects[i].Sent?
  {
    var o := ButtonOutcome(Approve, data, channelId, rows, unreachable, writeFails, readFails);
    match CallbackId(data)
    case None =>
      assert o.effects == [Answered(SomethingWentWrong)];
    case Some(id) =>
      var written := Decided(rows, id, Approve, writeFails);
      if !Updated(rows, id, writeFails) {
        assert o.effects == [Answered(StatusUpdateFailed)];
      } else if readFails || Lookup(written, id).None? {
        assert o.effects == [Answered(ProblemDataMissing)];
      } else if ParseInt(channelId).None? {
        assert o.effects == [Answered(SomethingWentWrong)];
      } else {
        var c := ParseInt(channelId).value;
        assert o.effects == [Sent(c, Publication(id, RecordText(Lookup(written, id).value)), c !in unreachable),
          Answered(ApprovedAndPublished), Edited(Plain(ApprovedCard(id)))];
      }
  }

  // ---------------------------------------------------------------------
  // /approve <id> and /reject <id>
  // ---------------------------------------------------------------------

  /** The argument of a moderation command. */
  datatype Target = MissingArgument | NotNumeric | Target(id: int)

  /** `text.split()`, then `int()` of the second word. */
  function CommandTarget(text: string): (t: Target)
    ensures t.MissingArgument? <==> |Words(text)| < 2
    ensures t.Target? <==> |Words(text)| >= 2 && ParseInt(Words(text)[1]).Some?
    ensures t.Target? ==> ParseInt(Words(text)[1]) == Some(t.id)
  {
    var words := Words(text);
    if |words| < 2 then MissingArgument
    else match ParseInt(words[1])
      case None => NotNumeric
      case Some(id) => Target(id)
  }

  /** "/approve 12" targets problem 12, and a bare "/approve" has no argument. */
  lemma CommandTargetOf(command: string, id: int)
    requires |command| > 0 && NoSpace(command)
    ensures CommandTarget(command + " " + IntToString(id)) == Target(id)
    ensures CommandTarget(command) == MissingArgument
  {
    var digits := IntToString(id);
    assert NoSpace(digits) by {
      forall i | 0 <= i < |digits| ensures !IsSpace(digits[i]) { }
    }
    TwoWords(command, digits);
    OneWord(command);
    ParseIntToString(id);
  }

  function Usage(v: Verdict): Notice
  {
    match v
    case Approve => ApproveUsage
    case Reject => RejectUsage
  }

  function CommandDone(v: Verdict, id: int): Notice
  {
    match v
    case Approve => ApprovedCommand(id)
    case Reject => RejectedCommand(id)
  }

  function CommandFailed(v: Verdict, id: int): Notice
  {
    match v
    case Approve => ApproveFailed(id)
    case Reject => RejectFailed(id)
  }

  /** What the command does once the target record was found pending. */
  function PendingOutcome(v: Verdict, id: int, row: Row, channelId: string, rows: seq<Row>, unreachable: set<int>,
                          writeFails: bool): Outcome
  {
    var written := Decided(rows, id, v, writeFails);
    var requests := WriterRequests(rows, id, StatusField(StatusOf(v)), writeFails);
    if !Updated(rows, id, writeFails) then Outcome(written, requests, [Answered(CommandFailed(v, id))])
    else match v
      case Reject => Outcome(written, requests, [Answered(RejectedCommand(id))])
      case Approve => Outcome(written, requests, Published(channelId, id, row, unreachable, [Answered(ApprovedCommand(id))]))
  }

  /**
   * What `approve_problem_command` / `reject_problem_command` do with the
   * message text: usage and number checks without touching the store,
   * then a lookup, and a status write only for a pending record.
   */
  function CommandOutcome(v: Verdict, text: string, channelId: string, rows: seq<Row>, unreachable: set<int>,
                          readFails: bool, writeFails: bool): Outcome
  {
    match CommandTarget(text)
    case MissingArgument => Outcome(rows, [], [Answered(Usage(v))])
    case NotNumeric => Outcome(rows, [], [Answered(IdMustBeNumber)])
    case Target(id) =>
      if readFails || Lookup(rows, id).None? then Outcome(rows, [RecordsRead], [Answered(NotFound(id))])
      else if Lookup(rows, id).value.status != Pending then Outcome(rows, [RecordsRead], [Answered(AlreadyProcessed(id))])
      else
        var o := PendingOutcome(v, id, Lookup(rows, id).value, channelId, rows, unreachable, writeFails);
        Outcome(o.rows, [RecordsRead] + o.requests, o.effects)
  }

  /** The command's tail for a pending record: write the status, then publish or confirm. */
  method DecidePending(v: Verdict, id: int, row: Row, channelId: string, sheet: Worksheet, bot: Bot, writeFails: bool)
    modifies sheet, bot
    ensures var o := PendingOutcome(v, id, row, channelId, old(sheet.rows), bot.unreachable, writeFails);
      sheet.rows == o.rows && sheet.requests == old(sheet.requests) + o.requests && bot.out == old(bot.out) + o.effects
  {
    var ok := sheet.UpdateStatus(id, StatusOf(v), writeFails);
    if !ok {
      bot.Answer(CommandFailed(v, id));
      return;
    }
    if v == Reject {
      bot.Answer(RejectedCommand(id));
      return;
    }
    var channel := ParseInt(channelId);
    if channel.None? {
      bot.Answer(SomethingWentWrong);
      return;
    }
    ghost var start := bot.out;
    PublishToChannel(bot, channel.value, id, RecordText(row));
    bot.Answer(ApprovedCommand(id));
    assert bot.out == start + ([Sent(channel.value, Publication(id, RecordText(row)), channel.value !in bot.unreachable)]
      + [Answered(ApprovedCommand(id))]);
  }

  /** `approve_problem_command` (v = Approve) and `reject_problem_command` (v = Reject). */
  method ModerateCommand(v: Verdict, text: string, channelId: string, sheet: Worksheet, bot: Bot, readFails: bool, writeFails: bool)
    modifies sheet, bot
    ensures var o := CommandOutcome(v, text, channelId, old(sheet.rows), bot.unreachable, readFails, writeFails);
      sheet.rows == o.rows && sheet.requests == old(sheet.requests) + o.requests && bot.out == old(bot.out) + o.effects
  {
    var target := CommandTarget(text);
    if target.MissingArgument? {
      bot.Answer(Usage(v));
      return;
    }
    if target.NotNumeric? {
      bot.Answer(IdMustBeNumber);
      return;
    }
    var id := target.id;
    var record := sheet.GetProblemById(id, readFails);
    if record.None? {
      bot.Answer(NotFound(id));
      return;
    }
    if record.value.status != Pending {
      bot.Answer(AlreadyProcessed(id));
      return;
    }
    ghost var o := PendingOutcome(v, id, record.value, channelId, sheet.rows, bot.unreachable, writeFails);
    DecidePending(v, id, record.value, channelId, sheet, bot, writeFails);
    AppendAssoc(old(sheet.requests), [RecordsRead], o.requests);
  }

  /** A usage or number error neither reads nor writes the sheet. */
  lemma CommandArgumentErrors(v: Verdict, text: string, channelId: string, rows: seq<Row>, unreachable: set<int>,
                              readFails: bool, writeFails: bool)
    requires !CommandTarget(text).Target?
    ensures var o := CommandOutcome(v, text, channelId, rows, unreachable, readFails, writeFails);
      o.rows == rows && o.requests == [] &&
      o.effects == [Answered(if |Words(text)| < 2 then Usage(v) else IdMustBeNumber)]
  {
  }

  /**
   * A command on a missing or decided record only reads: `update_status`
   * is not called, so a decided status stays as it was.
   */
  lemma CommandLeavesDecided(v: Verdict, text: string, channelId: string, rows: seq<Row>, unreachable: set<int>, writeFails: bool)
    requires CommandTarget(text).Target?
    requires var id := CommandTarget(text).id; Lookup(rows, id).None? || Lookup(rows, id).value.status != Pending
    ensures var id := CommandTarget(text).id;
      var o := CommandOutcome(v, text, channelId, rows, unreachable, false, writeFails);
      o.rows == rows && o.requests == [RecordsRead] &&
      o.effects == [Answered(if Lookup(rows, id).None? then NotFound(id) else AlreadyProcessed(id))]
  {
  }

  /** A fault-free command on a pending record decides it. */
  lemma CommandDecidesPending(v: Verdict, text: string, channelId: string, rows: seq<Row>, unreachable: set<int>)
    requires IdsCanonical(rows) && CommandTarget(text).Target?
    requires var id := CommandTarget(text).id; Lookup(rows, id).Some? && Lookup(rows, id).value.status == Pending
    ensures var id := CommandTarget(text).id;
      var o := CommandOutcome(v, text, channelId, rows, unreachable, false, false);
      Lookup(o.rows, id) == Some(Lookup(rows, id).value.(status := StatusOf(v))) &&
      o.effects == match v
        case Reject => [Answered(RejectedCommand(id))]
        case Approve => Published(channelId, id, Lookup(rows, id).value, unreachable, [Answered(ApprovedCommand(id))])
  {
    var id := CommandTarget(text).id;
    SameRowFound(rows, id);
    LookupAfterWrite(rows, id, StatusField(StatusOf(v)));
  }

  /** The record `id` is found and has status `status`. */
  predicate StatusIs(rows: seq<Row>, id: int, status: string)
  {
    match Lookup(rows, id)
    case None => false
    case Some(row) => row.status == status
  }

  /**
   * The command guard makes a decision final: once a command has decided
   * a record, a second command on it (either verdict) is answered
   * "already processed" and changes nothing, while a button press still
   * overwrites the decision.
   */
  lemma SecondDecision(first: Verdict, second: Verdict, text: string, data: string, channelId: string,
                       rows: seq<Row>, unreachable: set<int>)
    requires IdsCanonical(rows) && CommandTarget(text).Target?
    requires StatusIs(rows, CommandTarget(text).id, Pending)
    requires CallbackId(data) == Some(CommandTarget(text).id)
    ensures var id := CommandTarget(text).id;
      var after := CommandOutcome(first, text, channelId, rows, unreachable, false, false).rows;
      var again := CommandOutcome(second, text, channelId, after, unreachable, false, false);
      StatusIs(after, id, StatusOf(first)) &&
      again.rows == after && again.effects == [Answered(AlreadyProcessed(id))] &&
      StatusIs(ButtonOutcome(second, data, channelId, after, unreachable, false, false).rows, id, StatusOf(second))
  {
    var id := CommandTarget(text).id;
    CommandDecidesPending(first, text, channelId, rows, unreachable);
    var after := CommandOutcome(first, text, channelId, rows, unreachable, false, false).rows;
    assert StatusIs(after, id, StatusOf(first));
    SecondCommandIsRefused(second, text, channelId, after, unreachable);
    AfterCommandCanonical(first, text, channelId, rows, unreachable);
    ButtonIgnoresStatus(second, data, channelId, after, unreachable, false);
  }

  /** A command on a decided record is refused. */
  lemma SecondCommandIsRefused(v: Verdict, text: string, channelId: string, rows: seq<Row>, unreachable: set<int>)
    requires CommandTarget(text).Target?
    requires var id := CommandTarget(text).id; StatusIs(rows, id, Approved) || StatusIs(rows, id, Rejected)
    ensures var again := CommandOutcome(v, text, channelId, rows, unreachable, false, false);
      again.rows == rows && again.effects == [Answered(AlreadyProcessed(CommandTarget(text).id))]
  {
    CommandLeavesDecided(v, text, channelId, rows, unreachable, false);
  }

  /** A command keeps the ID cells canonical. */
  lemma AfterCommandCanonical(v: Verdict, text: string, channelId: string, rows: seq<Row>, unreachable: set<int>)
    requires IdsCanonical(rows)
    ensures IdsCanonical(CommandOutcome(v, text, channelId, rows, unreachable, false, false).rows)
  {
    if CommandTarget(text).Target? {
      var id := CommandTarget(text).id;
      var written := SetField(rows, IntToString(id), StatusField(StatusOf(v)));
      SetFieldKeepsLookup(rows, IntToString(id), StatusField(StatusOf(v)), id);
      assert CommandOutcome(v, text, channelId, rows, unreachable, false, false).rows in {rows, written};
    }
  }

  // ---------------------------------------------------------------------
  // /modstats
  // ---------------------------------------------------------------------

  /** The statistics reply: the number of records and the number with each exact status. */
  function StatsFor(records: seq<Row>): (n: Notice)
    ensures n.StatsReport? && n.total == |records|
    ensures n.pending == |Having(records, Pending)| && n.approved == |Having(records, Approved)|
    ensures n.rejected == |Having(records, Rejected)|
    ensures n.pending + n.approved + n.rejected <= n.total
  {
    StatusCountsBounded(records);
    StatsReport(|records|, |Having(records, Pending)|, |Having(records, Approved)|, |Having(records, Rejected)|)
  }

  /** `moderation_stats`: the counts, or the error reply when the read fails. */
  method ModerationStats(sheet: Worksheet, bot: Bot, readFails: bool)
    modifies sheet`requests, bot
    ensures sheet.requests == old(sheet.requests) + [RecordsRead]
    ensures bot.out == old(bot.out) + [Answered(if readFails then StatsFailed else StatsFor(sheet.rows))]
  {
    var records := sheet.AllRecords(readFails);
    if records.None? {
      bot.Answer(StatsFailed);
    } else {
      bot.Answer(StatsFor(records.value));
    }
  }

  // ---------------------------------------------------------------------
  // /pending
  // ---------------------------------------------------------------------

  const PreviewLength: nat := 100
  const PartLength: nat := 4000

  /** The first 100 characters, followed by "..." exactly when the text is longer. */
  function Preview(text: string): (r: string)
    ensures |text| <= PreviewLength ==> r == text
    ensures |text| > PreviewLength ==> |r| == PreviewLength + 3 && r[..PreviewLength] == text[..PreviewLength] && r[PreviewLength..] == "..."
  {
    if |text| > PreviewLength then text[..PreviewLength] + "..." else text
  }

  /** The heading of the listing, with the number of pending problems. */
  function ListingHeader(n: nat): string
  {
    "⏳ **Проблемы на модерации (" + IntToString(n) + "):**\n\n"
  }

  /** One listed problem: its id, the text preview and the creation date, as the record shows them. */
  function Entry(row: Row): string
  {
    "**#" + CellText(Numericise(row.id)) + "** - " + Preview(RecordText(row)) + "\n"
      + "📅 " + CellText(Numericise(row.createdAt)) + "\n\n"
  }

  function Entries(rows: seq<Row>): string
  {
    if rows == [] then "" else Entries(rows[..|rows| - 1]) + Entry(rows[|rows| - 1])
  }

  function Listing(pending: seq<Row>): string
  {
    ListingHeader(|pending|) + Entries(pending)
  }

  /** The loop that builds the listing entry by entry. */
  method BuildListing(pending: seq<Row>) returns (text: string)
    ensures text == Listing(pending)
  {
    var entries := "";
    var i := 0;
    while i < |pending|
      invariant 0 <= i <= |pending|
      invariant entries == Entries(pending[..i])
    {
      EntriesStep(pending, i);
      entries := entries + Entry(pending[i]);
      i := i + 1;
    }
    assert pending[..i] == pending;
    text := ListingHeader(|pending|) + entries;
  }

  lemma EntriesStep(pending: seq<Row>, i: nat)
    requires i < |pending|
    ensures Entries(pending[..i + 1]) == Entries(pending[..i]) + Entry(pending[i])
  {
    assert pending[..i + 1][..i] == pending[..i];
  }

  /** The parts joined back together. */
  function Concat(parts: seq<string>): string
  {
    if parts == [] then "" else parts[0] + Concat(parts[1..])
  }

  /**
   * `[text[i:i+n] for i in range(0, len(text), n)]` for a text longer than
   * `n`, and the text itself otherwise: consecutive slices of at most `n`
   * characters, all but the last exactly `n`, that join back to the text.
   */
  function Slices(text: string, n: nat): (parts: seq<string>)
    requires n > 0
    ensures |parts| > 0 && Concat(parts) == text
    ensures forall i :: 0 <= i < |parts| ==> |parts[i]| <= n
    ensures forall i :: 0 <= i < |parts| - 1 ==> |parts[i]| == n
    ensures text != [] ==> forall i :: 0 <= i < |parts| ==> parts[i] != []
    ensures |text| <= n ==> parts == [text]
    decreases |text|
  {
    if |text| <= n then [text]
    else
      var rest := Slices(text[n..], n);
      assert ([text[..n]] + rest)[1..] == rest;
      assert text[..n] + text[n..] == text;
      [text[..n]] + rest
  }

  /** The answers `show_pending_problems` sends for the listing parts. */
  function PartAnswers(parts: seq<string>): (r: seq<Effect>)
    ensures |r| == |parts| && forall i :: 0 <= i < |parts| ==> r[i] == Answered(PendingPart(parts[i]))
  {
    seq(|parts|, i requires 0 <= i < |parts| => Answered(PendingPart(parts[i])))
  }

  /** What `show_pending_problems` answers for the pending records `pending`. */
  function PendingReply(pending: seq<Row>): seq<Effect>
  {
    if pending == [] then [Answered(NothingPending)] else PartAnswers(Slices(Listing(pending), PartLength))
  }

  /**
   * `show_pending_problems`: the listing of pending problems in parts of
   * at most 4000 characters. A failed read returns no problems, so it
   * reads as "nothing pending".
   */
  method ShowPending(sheet: Worksheet, bot: Bot, readFails: bool)
    modifies sheet`requests, bot
    ensures sheet.requests == old(sheet.requests) + [RecordsRead]
    ensures bot.out == old(bot.out) + PendingReply(if readFails then [] else Having(sheet.rows, Pending))
  {
    var pending := sheet.GetPendingProblems(readFails);
    if pending == [] {
      bot.Answer(NothingPending);
      return;
    }
    var text := BuildListing(pending);
    AnswerParts(bot, Slices(text, PartLength));
  }

  /** One answer per part, in order. */
  method AnswerParts(bot: Bot, parts: seq<string>)
    modifies bot
    ensures bot.out == old(bot.out) + PartAnswers(parts)
  {
    var i := 0;
    while i < |parts|
      invariant 0 <= i <= |parts|
      invariant bot.out == old(bot.out) + PartAnswers(parts)[..i]
    {
      bot.Answer(PendingPart(parts[i]));
      assert PartAnswers(parts)[..i + 1] == PartAnswers(parts)[..i] + [Answered(PendingPart(parts[i]))];
      i := i + 1;
    }
    assert PartAnswers(parts)[..i] == PartAnswers(parts);
  }

  /** The reply's parts, joined, are the whole listing, each at most 4000 characters long. */
  lemma PendingReplyIsListing(pending: seq<Row>)
    requires pending != []
    ensures var r := PendingReply(pending);
      var parts := Slices(Listing(pending), PartLength);
      r == PartAnswers(parts) && Concat(parts) == Listing(pending) &&
      forall i :: 0 <= i < |r| ==> r[i].Answered? && r[i].notice.PendingPart? && |r[i].notice.text| <= PartLength
  {
  }

  /**
   * The listing as the source builds it: the record's text value is
   * sliced directly, which raises when the text cell reads as a number,
   * and the whole reply becomes the error answer.
   */
  function EntryAsWritten(row: Row): Option<string>
  {
    match Numericise(row.text)
    case Number(_) => None
    case Text(t) => Some("**#" + CellText(Numericise(row.id)) + "** - " + Preview(t) + "\n"
      + "📅 " + CellText(Numericise(row.createdAt)) + "\n\n")
  }

  function PendingReplyAsWritten(pending: seq<Row>): seq<Effect>
  {
    if pending == [] then [Answered(NothingPending)]
    else if exists i :: 0 <= i < |pending| && EntryAsWritten(pending[i]).None? then [Answered(PendingFailed)]
    else PendingReply(pending)
  }

  /** For text that is not a number the as-written entry is the modelled one. */
  lemma EntryAsWrittenAgrees(row: Row)
    requires ParseInt(row.text).None?
    ensures EntryAsWritten(row) == Some(Entry(row))
  {
  }

  /**
   * A pending problem whose text is the text of an integer ("42", say)
   * turns the whole /pending reply into the error answer.
   */
  lemma NumericTextBreaksListing(id: nat, n: int, createdAt: string)
    ensures var row := NewRow(id, IntToString(n), createdAt);
      PendingReplyAsWritten([row]) == [Answered(PendingFailed)] &&
      PendingReply([row]) != [Answered(PendingFailed)]
  {
    var row := NewRow(id, IntToString(n), createdAt);
    ParseIntToString(n);
    assert EntryAsWritten([row][0]).None?;
  }
}
