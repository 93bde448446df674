/**
 * Whole-run scenarios on a fresh worksheet: the store's integration script
 * (test_sheets.py), a voter liking twice, and an approval followed by a
 * late rejection.
 */
module Scenarios {
  import opened Wrappers
  import opened Decimal
  import opened PyText
  import opened VoterLedger
  import opened Sheet
  import opened RecordStore
  import opened Outbox
  import opened Moderation

  /**
   * The integration script: add a problem, read it back, approve it and
   * set its likes to 5. On a fault-free sheet every step succeeds and the
   * record ends up approved with 5 likes.
   */
  method StoreScript(initial: seq<Row>, text: string, createdAt: string)
    returns (id: nat, record: Option<Row>, statusOk: bool, likesOk: bool, final: Option<Row>)
    requires IdsCanonical(initial)
    ensures id == NextId(IdCells(initial), false) && Lookup(initial, id) == None
    ensures record == Some(NewRow(id, text, createdAt))
    ensures statusOk && likesOk
    ensures final == Some(NewRow(id, text, createdAt).(status := Approved, likes := 5))
  {
    var sheet := new Worksheet(initial);
    var added := sheet.AddProblem(text, createdAt, false, false);
    id := added.value;
    NextIdIsFresh(initial);
    LookupAfterAdd(initial, text, createdAt);
    record := sheet.GetProblemById(id, false);

    SameRowFound(sheet.rows, id);
    ghost var rows0 := sheet.rows;
    statusOk := sheet.UpdateStatus(id, Approved, false);
    LookupAfterWrite(rows0, id, StatusField(Approved));
    SetFieldKeepsLookup(rows0, IntToString(id), StatusField(Approved), id);

    SameRowFound(sheet.rows, id);
    ghost var rows1 := sheet.rows;
    likesOk := sheet.UpdateLikes(id, 5, false);
    LookupAfterWrite(rows1, id, LikesField(5));
    final := sheet.GetProblemById(id, false);
  }

  /** One fault-free press of the like button by a voter with a positive id. */
  method PressLike(sheet: Worksheet, id: int, u: nat) returns (count: Option<nat>, added: bool)
    requires IdsCanonical(sheet.rows) && u > 0
    requires Lookup(sheet.rows, id).Some? && 0 !in RowVoters(Lookup(sheet.rows, id).value)
    modifies sheet
    ensures var S := old(RowVoters(Lookup(sheet.rows, id).value));
      added == (u !in S) && count == Some(|Toggle(S, u).0|) &&
      IdsCanonical(sheet.rows) && Lookup(sheet.rows, id).Some? &&
      RowVoters(Lookup(sheet.rows, id).value) == Toggle(S, u).0
  {
    LedgerAfterToggle(sheet.rows, id, u);
    ToggleWrites(sheet.rows, id, u);
    count, added := sheet.ToggleLike(id, u, NoToggleFaults);
  }

  /**
   * A voter pressing the like button twice: the first press adds the vote
   * exactly when the voter had not voted, the second undoes it, and the
   * ledger and count end where they started.
   */
  method LikeTwice(initial: seq<Row>, id: int, u: nat)
    returns (first: Option<nat>, firstAdded: bool, second: Option<nat>, secondAdded: bool, likedAfter: bool)
    requires IdsCanonical(initial) && u > 0
    requires Lookup(initial, id).Some? && 0 !in RowVoters(Lookup(initial, id).value)
    ensures var S := RowVoters(Lookup(initial, id).value);
      firstAdded == (u !in S) && first == Some(if u in S then |S| - 1 else |S| + 1) &&
      secondAdded == !firstAdded && second == Some(|S|) &&
      likedAfter == (u in S)
  {
    var sheet := new Worksheet(initial);
    ghost var S := RowVoters(Lookup(initial, id).value);
    first, firstAdded := PressLike(sheet, id, u);
    ToggleTwice(S, u);
    second, secondAdded := PressLike(sheet, id, u);
    likedAfter := sheet.HasUserLiked(id, u, false);
  }

  /** `/approve <id>` on a pending record: published to the channel, confirmed, and the record approved. */
  lemma ApproveCommandOnPending(command: string, rows: seq<Row>, id: nat, channel: int)
    requires |command| > 0 && NoSpace(command)
    requires IdsCanonical(rows)
    requires Lookup(rows, id).Some? && Lookup(rows, id).value.status == Pending
    ensures var row := Lookup(rows, id).value;
      var o := CommandOutcome(Approve, command + " " + IntToString(id), IntToString(channel), rows, {}, false, false);
      o.effects == [Sent(channel, Publication(id, RecordText(row)), true), Answered(ApprovedCommand(id))] &&
      Lookup(o.rows, id) == Some(row.(status := Approved))
  {
    CommandTargetOf(command, id);
    ParseIntToString(channel);
    CommandDecidesPending(Approve, command + " " + IntToString(id), IntToString(channel), rows, {});
  }

  /** `/reject <id>` on a decided record: "already processed", and nothing is written. */
  lemma RejectCommandOnDecided(command: string, rows: seq<Row>, id: nat, channelId: string)
    requires |command| > 0 && NoSpace(command)
    requires Lookup(rows, id).Some? && Lookup(rows, id).value.status != Pending
    ensures var o := CommandOutcome(Reject, command + " " + IntToString(id), channelId, rows, {}, false, false);
      o.rows == rows && o.effects == [Answered(AlreadyProcessed(id))]
  {
    CommandTargetOf(command, id);
    CommandLeavesDecided(Reject, command + " " + IntToString(id), channelId, rows, {}, false);
  }

  /** The two command words are single tokens. */
  lemma CommandWords()
    ensures IsWord("/approve") && IsWord("/reject")
  {
    assert forall i :: 0 <= i < |"/approve"| ==> !IsSpace("/approve"[i]);
    assert forall i :: 0 <= i < |"/reject"| ==> !IsSpace("/reject"[i]);
  }

  /** Send `<command> <id>` with the approve verdict for a pending record. */
  method ApproveCommandStep(command: string, sheet: Worksheet, bot: Bot, id: nat, channel: int)
    requires |command| > 0 && NoSpace(command)
    requires IdsCanonical(sheet.rows) && bot.unreachable == {}
    requires Lookup(sheet.rows, id).Some? && Lookup(sheet.rows, id).value.status == Pending
    modifies sheet, bot
    ensures var row := old(Lookup(sheet.rows, id).value);
      bot.out == old(bot.out) + [Sent(channel, Publication(id, RecordText(row)), true), Answered(ApprovedCommand(id))] &&
      Lookup(sheet.rows, id) == Some(row.(status := Approved))
  {
    ApproveCommandOnPending(command, sheet.rows, id, channel);
    ModerateCommand(Approve, command + " " + IntToString(id), IntToString(channel), sheet, bot, false, false);
  }

  /** Send `<command> <id>` with the reject verdict for a decided record. */
  method RejectCommandStep(command: string, sheet: Worksheet, bot: Bot, id: nat, channel: int)
    requires |command| > 0 && NoSpace(command)
    requires bot.unreachable == {}
    requires Lookup(sheet.rows, id).Some? && Lookup(sheet.rows, id).value.status != Pending
    modifies sheet, bot
    ensures sheet.rows == old(sheet.rows) && bot.out == old(bot.out) + [Answered(AlreadyProcessed(id))]
  {
    RejectCommandOnDecided(command, sheet.rows, id, IntToString(channel));
    ModerateCommand(Reject, command + " " + IntToString(id), IntToString(channel), sheet, bot, false, false);
  }

  /**
   * `/approve <id>` on a pending record publishes it; a later
   * `/reject <id>` is answered "already processed" and the record stays
   * approved.
   */
  method ApproveThenReject(initial: seq<Row>, id: nat, channel: int)
    returns (out: seq<Effect>, final: Option<Row>)
    requires IdsCanonical(initial)
    requires Lookup(initial, id).Some? && Lookup(initial, id).value.status == Pending
    ensures var row := Lookup(initial, id).value;
      out == [Sent(channel, Publication(id, RecordText(row)), true), Answered(ApprovedCommand(id)), Answered(AlreadyProcessed(id))] &&
      final == Some(row.(status := Approved))
  {
    var sheet := new Worksheet(initial);
    var bot := new Bot({});
    CommandWords();
    ApproveCommandStep("/approve", sheet, bot, id, channel);
    RejectCommandStep("/reject", sheet, bot, id, channel);
    out := bot.out;
    final := sheet.GetProblemById(id, false);
  }
}
