/**
 * The channel side (handlers/channel.py): the like button, the message
 * edit after a vote, and the statistics over approved problems.
 */
module Channel {
  import opened Wrappers
  import opened Decimal
  import opened VoterLedger
  import opened Sheet
  import opened RecordStore
  import opened Outbox

  /** The callback data of every like button. */
  function LikeData(id: int): string
  {
    CallbackData("like", id)
  }

  /**
   * The button `update_channel_message` attaches: "Убрать лайк (n)"
   * exactly when the voter has liked, "Лайк (n)" otherwise, and always
   * data that reads back as the problem's id.
   */
  function ButtonFor(hasLiked: bool, count: int, id: int): (b: Button)
    ensures b.caption.Unlike? <==> hasLiked
    ensures b.caption.count == count
    ensures CallbackId(b.data) == Some(id)
  {
    CallbackRoundTrip("like", id);
    Button(if hasLiked then Unlike(count) else Like(count), LikeData(id))
  }

  /**
   * `format_problem_for_channel`: a post showing `count` (0 by default)
   * with a "Лайк" button carrying the same count.
   */
  function FormatForChannel(id: int, text: string, count: int := 0): (c: Content)
    ensures c.ChannelPost? && c.problemId == id && c.text == text
    ensures c.count == count && c.button.caption == Like(count)
    ensures CallbackId(c.button.data) == Some(id)
  {
    ChannelPost(id, text, count, ButtonFor(false, count, id))
  }

  /**
   * `update_channel_message`: ask the store whether the voter has liked
   * and edit the post to show `count` with the matching button.
   */
  method UpdateChannelMessage(sheet: Worksheet, bot: Bot, id: int, text: string, count: int, u: nat, readFails: bool)
    modifies sheet`requests, bot
    ensures sheet.requests == old(sheet.requests) + [RecordsRead]
    ensures bot.out == old(bot.out) + [Edited(ChannelPost(id, text, count, ButtonFor(HasLiked(sheet.rows, id, u, readFails), count, id)))]
  {
    var liked := sheet.HasUserLiked(id, u, readFails);
    bot.Edit(ChannelPost(id, text, count, ButtonFor(liked, count, id)));
  }

  /** Which sheet requests of one like press fail. */
  datatype LikeFaults = LikeFaults(lookup: bool, toggle: ToggleFaults, likedRead: bool)

  const NoLikeFaults := LikeFaults(false, NoToggleFaults, false)

  /** The effects after `toggle_like` returned a count: the edited post, then the answer. */
  function ReportedVote(id: int, text: string, n: nat, added: bool, liked: bool): seq<Effect>
  {
    [Edited(ChannelPost(id, text, n, ButtonFor(liked, n, id))), Answered(if added then LikeAdded(n) else LikeRemoved(n))]
  }

  /** What `handle_like` does once the pressed problem's record `row` was found. */
  function FoundOutcome(id: int, row: Row, u: nat, rows: seq<Row>, f: LikeFaults): Outcome
  {
    var t := Toggled(rows, id, u, f.toggle);
    var requests := ToggleRequests(rows, id, u, f.toggle);
    match t.1
    case None => Outcome(t.0, requests, [Answered(LikeUpdateFailed)])
    case Some(n) => Outcome(t.0, requests + [RecordsRead], ReportedVote(id, RecordText(row), n, t.2, HasLiked(t.0, id, u, f.likedRead)))
  }

  /** What `handle_like` does for a press with callback data `data` by voter `u`. */
  function LikeOutcome(data: string, u: nat, rows: seq<Row>, f: LikeFaults): Outcome
  {
    match CallbackId(data)
    case None => Outcome(rows, [], [Answered(SomethingWentWrong)])
    case Some(id) =>
      if f.lookup || Lookup(rows, id).None? then Outcome(rows, [RecordsRead], [Answered(LikeProblemNotFound)])
      else
        var o := FoundOutcome(id, Lookup(rows, id).value, u, rows, f);
        Outcome(o.rows, [RecordsRead] + o.requests, o.effects)
  }

  /** The reply after a counted vote: edit the post, then answer with the count. */
  method ReportVote(sheet: Worksheet, bot: Bot, id: int, text: string, n: nat, added: bool, u: nat, readFails: bool)
    modifies sheet`requests, bot
    ensures sheet.requests == old(sheet.requests) + [RecordsRead]
    ensures bot.out == old(bot.out) + ReportedVote(id, text, n, added, HasLiked(sheet.rows, id, u, readFails))
  {
    UpdateChannelMessage(sheet, bot, id, text, n, u, readFails);
    if added {
      bot.Answer(LikeAdded(n));
    } else {
      bot.Answer(LikeRemoved(n));
    }
  }

  /** The part of `handle_like` after the record was found: toggle, then report. */
  method PressOnFound(id: int, row: Row, u: nat, sheet: Worksheet, bot: Bot, f: LikeFaults)
    modifies sheet, bot
    ensures var o := FoundOutcome(id, row, u, old(sheet.rows), f);
      sheet.rows == o.rows && sheet.requests == old(sheet.requests) + o.requests && bot.out == old(bot.out) + o.effects
  {
    var count, added := sheet.ToggleLike(id, u, f.toggle);
    if count.Some? {
      ReportVote(sheet, bot, id, RecordText(row), count.value, added, u, f.likedRead);
      AppendAssoc(old(sheet.requests), ToggleRequests(old(sheet.rows), id, u, f.toggle), [RecordsRead]);
    } else {
      bot.Answer(LikeUpdateFailed);
    }
  }

  /**
   * `handle_like`: parse the id, look the problem up, toggle the vote,
   * then edit the post and answer with the new count.
   */
  method HandleLike(data: string, u: nat, sheet: Worksheet, bot: Bot, f: LikeFaults)
    modifies sheet, bot
    ensures var o := LikeOutcome(data, u, old(sheet.rows), f);
      sheet.rows == o.rows && sheet.requests == old(sheet.requests) + o.requests && bot.out == old(bot.out) + o.effects
  {
    var parsed := CallbackId(data);
    if parsed.None? {
      bot.Answer(SomethingWentWrong);
      return;
    }
    var id := parsed.value;
    var record := sheet.GetProblemById(id, f.lookup);
    if record.None? {
      bot.Answer(LikeProblemNotFound);
      return;
    }
    ghost var o := FoundOutcome(id, record.value, u, sheet.rows, f);
    PressOnFound(id, record.value, u, sheet, bot, f);
    AppendAssoc(old(sheet.requests), [RecordsRead], o.requests);
  }

  /** A press on a missing problem never reaches `toggle_like`: only the lookup is sent. */
  lemma LikeOnMissingProblem(data: string, u: nat, rows: seq<Row>, f: LikeFaults)
    requires CallbackId(data).Some? && Lookup(rows, CallbackId(data).value).None?
    ensures LikeOutcome(data, u, rows, f) == Outcome(rows, [RecordsRead], [Answered(LikeProblemNotFound)])
  {
  }

  /** A failed toggle gives the error answer and leaves the post alone. */
  lemma FailedToggleNoEdit(data: string, u: nat, rows: seq<Row>, f: LikeFaults)
    requires CallbackId(data).Some? && !f.lookup && Lookup(rows, CallbackId(data).value).Some?
    requires f.toggle.read
    ensures LikeOutcome(data, u, rows, f).effects == [Answered(LikeUpdateFailed)]
    ensures LikeOutcome(data, u, rows, f).rows == rows
  {
  }

  /**
   * After a fault-free press the edited post and the answer agree: both
   * show the new ledger size, and the button offers "Убрать лайк" exactly
   * when the answer says the like was added.
   */
  lemma LikePressConsistent(data: string, u: nat, rows: seq<Row>)
    requires CallbackId(data).Some? && IdsCanonical(rows) && u > 0
    requires Lookup(rows, CallbackId(data).value).Some?
    requires 0 !in RowVoters(Lookup(rows, CallbackId(data).value).value)
    ensures var id := CallbackId(data).value;
      var S := RowVoters(Lookup(rows, id).value);
      var n := |Toggle(S, u).0|;
      var o := LikeOutcome(data, u, rows, NoLikeFaults);
      |o.effects| == 2 && o.effects[0].Edited? && o.effects[0].content.ChannelPost? &&
      o.effects[0].content.count == n && o.effects[0].content.button.caption.count == n &&
      (o.effects[0].content.button.caption.Unlike? <==> u !in S) &&
      o.effects[1] == Answered(if u !in S then LikeAdded(n) else LikeRemoved(n))
  {
    var id := CallbackId(data).value;
    HasLikedAfterToggle(rows, id, u);
  }

  // ---------------------------------------------------------------------
  // get_problem_stats
  // ---------------------------------------------------------------------

  /** The sum of the Likes values. */
  function SumLikes(rs: seq<Row>): int
  {
    if rs == [] then 0 else SumLikes(rs[..|rs| - 1]) + rs[|rs| - 1].likes
  }

  /**
   * The position Python's `max(..., key=likes)` picks: a row whose likes
   * are at least every row's, and the first such row.
   */
  function FirstMaxIndex(rs: seq<Row>): (k: nat)
    requires rs != []
    ensures k < |rs|
    ensures forall j :: 0 <= j < |rs| ==> rs[j].likes <= rs[k].likes
    ensures forall j :: 0 <= j < k ==> rs[j].likes < rs[k].likes
  {
    if |rs| == 1 then 0
    else
      var k := FirstMaxIndex(rs[..|rs| - 1]);
      assert forall j :: 0 <= j < |rs| - 1 ==> rs[j] == rs[..|rs| - 1][j];
      if rs[|rs| - 1].likes > rs[k].likes then |rs| - 1 else k
  }

  datatype Stats = Stats(total: nat, approved: nat, totalLikes: int, mostLiked: Option<Row>)

  /** The statistics over all records: problem count, approved count, likes and the most liked approved problem. */
  function ProblemStats(rows: seq<Row>): (s: Stats)
    ensures s.total == |rows| && s.approved == |Having(rows, Approved)|
    ensures s.totalLikes == SumLikes(Having(rows, Approved))
    ensures s.mostLiked.None? <==> Having(rows, Approved) == []
    ensures s.mostLiked.Some? ==> s.mostLiked.value in rows && s.mostLiked.value.status == Approved
    ensures s.mostLiked.Some? ==> s.mostLiked.value == Having(rows, Approved)[FirstMaxIndex(Having(rows, Approved))]
    ensures s.mostLiked.Some? ==> forall r :: r in Having(rows, Approved) ==> r.likes <= s.mostLiked.value.likes
  {
    var approved := Having(rows, Approved);
    Stats(|rows|, |approved|, SumLikes(approved),
      if approved == [] then None else Some(approved[FirstMaxIndex(approved)]))
  }

  /** A record that is not approved adds to the total and changes nothing else. */
  lemma StatsIgnoreUnapproved(rows: seq<Row>, r: Row)
    requires r.status != Approved
    ensures ProblemStats(rows + [r]) == ProblemStats(rows).(total := |rows| + 1)
  {
    HavingAppend(rows, [r], Approved);
    assert Having([r], Approved) == [];
    assert Having(rows, Approved) + [] == Having(rows, Approved);
  }

  /** An approved record adds its likes to the total. */
  lemma StatsCountApproved(rows: seq<Row>, r: Row)
    requires r.status == Approved
    ensures ProblemStats(rows + [r]).approved == ProblemStats(rows).approved + 1
    ensures ProblemStats(rows + [r]).totalLikes == ProblemStats(rows).totalLikes + r.likes
  {
    HavingAppend(rows, [r], Approved);
    assert Having([r], Approved) == [r];
    var a := Having(rows, Approved) + [r];
    assert a[..|a| - 1] == Having(rows, Approved);
  }

  /** `get_problem_stats`: the statistics, or nothing (`{}`) when the read fails. */
  method ProblemStatsOf(sheet: Worksheet, readFails: bool) returns (s: Option<Stats>)
    modifies sheet`requests
    ensures s == if readFails then None else Some(ProblemStats(sheet.rows))
    ensures sheet.requests == old(sheet.requests) + [RecordsRead]
  {
    var records := sheet.AllRecords(readFails);
    s := if records.None? then None else Some(ProblemStats(records.value));
  }
}
