/**
 * What the bot handlers hand to Telegram: messages sent to a chat, answers
 * to the triggering message or button press, and edits of the message a
 * button belongs to. The bot keeps them in order in an output log.
 */
module Outbox {
  import opened Wrappers
  import opened Decimal
  import opened PyText
  import opened Sheet
  import opened RecordStore

  /** The decision a reply or an edited message conveys. */
  datatype Notice =
    // button handlers (handlers/moderation.py)
    | ApprovedAndPublished | ProblemDataMissing | StatusUpdateFailed | RejectedByButton
    | ApprovedCard(problemId: int) | RejectedCard(problemId: int)
    // any handler whose body raised
    | SomethingWentWrong
    // /approve and /reject
    | ApproveUsage | RejectUsage | IdMustBeNumber
    | NotFound(problemId: int) | AlreadyProcessed(problemId: int)
    | ApprovedCommand(problemId: int) | ApproveFailed(problemId: int)
    | RejectedCommand(problemId: int) | RejectFailed(problemId: int)
    // /modstats and /pending
    | StatsReport(total: nat, pending: nat, approved: nat, rejected: nat) | StatsFailed
    | NothingPending | PendingPart(text: string) | PendingFailed
    // like button (handlers/channel.py)
    | LikeProblemNotFound | LikeAdded(count: int) | LikeRemoved(count: int) | LikeUpdateFailed
    // text intake (handlers/user.py)
    | SendText | TooLongText | Received(problemId: int) | SaveFailed

  /** The label of a like button: "Лайк (n)" or "Убрать лайк (n)". */
  datatype LikeLabel = Like(count: int) | Unlike(count: int)

  datatype Button = Button(caption: LikeLabel, data: string)

  datatype Content =
    | ModerationCard(problemId: int, text: string, approveData: string, rejectData: string)
    | ChannelPost(problemId: int, text: string, count: int, button: Button)
    | Plain(notice: Notice)

  datatype Effect =
    | Sent(chat: int, content: Content, delivered: bool)
    | Answered(notice: Notice)
    | Edited(content: Content)

  /**
   * What one handler invocation does, as a function of the state it starts
   * from: the table it leaves, the sheet requests it sends and the effects
   * it appends to the bot's log.
   */
  datatype Outcome = Outcome(rows: seq<Row>, requests: seq<Request>, effects: seq<Effect>)

  /** Inline-button callback data `<prefix>_<id>`. */
  function CallbackData(prefix: string, id: int): string
  {
    prefix + "_" + IntToString(id)
  }

  /** `int(data.split("_")[1])`: `None` where Python raises (no second part, or not an integer). */
  function CallbackId(data: string): (r: Option<int>)
    ensures r.Some? ==> |Split(data, '_')| >= 2 && ParseInt(Split(data, '_')[1]) == r
  {
    var parts := Split(data, '_');
    if |parts| < 2 then None else ParseInt(parts[1])
  }

  /** The id a handler reads back from callback data is the id the data was built from. */
  lemma CallbackRoundTrip(prefix: string, id: int)
    requires '_' !in prefix
    ensures CallbackId(CallbackData(prefix, id)) == Some(id)
  {
    var digits := IntToString(id);
    assert '_' !in digits by {
      forall i | 0 <= i < |digits| ensures digits[i] != '_' { }
    }
    assert CallbackData(prefix, id) == prefix + ['_'] + digits;
    SplitAtSeparator(prefix, '_', digits);
    SplitWithoutSeparator(digits, '_');
    ParseIntToString(id);
  }

  /**
   * The bot. Sending to a chat in `unreachable` raises (the caller catches
   * it and carries on); the log records the attempt either way.
   */
  class Bot {
    const unreachable: set<int>
    var out: seq<Effect>

    constructor (unreachable: set<int>)
      ensures this.unreachable == unreachable && out == []
    {
      this.unreachable := unreachable;
      out := [];
    }

    /** `bot.send_message(chat, ...)`; `delivered` is false when it raised. */
    method Send(chat: int, content: Content) returns (delivered: bool)
      modifies this
      ensures delivered == (chat !in unreachable)
      ensures out == old(out) + [Sent(chat, content, delivered)]
    {
      delivered := chat !in unreachable;
      out := out + [Sent(chat, content, delivered)];
    }

    /** `callback.answer(...)` or `message.answer(...)`. */
    method Answer(notice: Notice)
      modifies this
      ensures out == old(out) + [Answered(notice)]
    {
      out := out + [Answered(notice)];
    }

    /** `callback.message.edit_text(...)`. */
    method Edit(content: Content)
      modifies this
      ensures out == old(out) + [Edited(content)]
    {
      out := out + [Edited(content)];
    }
  }
}
