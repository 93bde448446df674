/**
 * The problems worksheet as a value: a header row followed by data rows
 * [ID, Text, Likes, Status, CreatedAt, Voters] (columns A to F), and the
 * pure functions the record store is specified by.
 */
module Sheet {
  import opened Wrappers
  import opened Decimal
  import opened VoterLedger

  /** The header cell at A1, the first value of the ID column. */
  const HeaderId: string := "ID"

  const Pending: string := "pending"
  const Approved: string := "approved"
  const Rejected: string := "rejected"

  /** One data row. Likes is written as a number; the other cells hold text. */
  datatype Row = Row(id: string, text: string, likes: int, status: string, createdAt: string, voters: string)

  /** A value written by `update_cell` into one of the three columns the store writes. */
  datatype Field = LikesField(likes: int) | StatusField(status: string) | VotersField(voters: string)

  /** The 1-based column `update_cell` targets for a field. */
  function Column(f: Field): nat
  {
    match f
    case LikesField(_) => 3
    case StatusField(_) => 4
    case VotersField(_) => 6
  }

  function Written(row: Row, f: Field): Row
  {
    match f
    case LikesField(n) => row.(likes := n)
    case StatusField(s) => row.(status := s)
    case VotersField(v) => row.(voters := v)
  }

  /** The ID column below the header, as text. */
  function IdCells(rows: seq<Row>): (r: seq<string>)
    ensures |r| == |rows|
    ensures forall i :: 0 <= i < |rows| ==> r[i] == rows[i].id
  {
    seq(|rows|, i requires 0 <= i < |rows| => rows[i].id)
  }

  /** The row a new problem is appended as. */
  function NewRow(id: int, text: string, createdAt: string): Row
  {
    Row(IntToString(id), text, 0, Pending, createdAt, "")
  }

  // ---------------------------------------------------------------------
  // Next-id allocation
  // ---------------------------------------------------------------------

  /** The largest value among the all-digit cells, if there is one. */
  function MaxDigitId(ids: seq<string>): (r: Option<nat>)
    ensures r.None? <==> forall i :: 0 <= i < |ids| ==> !IsDigits(ids[i])
    ensures r.Some? ==> exists i :: 0 <= i < |ids| && IsDigits(ids[i]) && DigitsValue(ids[i]) == r.value
    ensures r.Some? ==> forall i :: 0 <= i < |ids| && IsDigits(ids[i]) ==> DigitsValue(ids[i]) <= r.value
  {
    if ids == [] then None
    else
      var rest := MaxDigitId(ids[1..]);
      assert forall i :: 1 <= i < |ids| ==> ids[i] == ids[1..][i - 1];
      if !IsDigits(ids[0]) then rest
      else if rest.Some? && rest.value >= DigitsValue(ids[0]) then rest
      else Some(DigitsValue(ids[0]))
  }

  /**
   * The id `_get_next_id` hands out, given the ID cells below the header:
   * 1 when the read fails, when there are no cells, or when no cell is all
   * digits (the maximum of nothing raises); otherwise one more than the
   * largest all-digit cell.
   */
  function NextId(ids: seq<string>, readFails: bool): (r: nat)
    ensures r >= 1
    ensures readFails || (forall i :: 0 <= i < |ids| ==> !IsDigits(ids[i])) ==> r == 1
    ensures !readFails ==> forall i :: 0 <= i < |ids| && IsDigits(ids[i]) ==> DigitsValue(ids[i]) < r
    ensures !readFails && (exists i :: 0 <= i < |ids| && IsDigits(ids[i])) ==>
      exists i :: 0 <= i < |ids| && IsDigits(ids[i]) && DigitsValue(ids[i]) == r - 1
  {
    if readFails || ids == [] then 1
    else match MaxDigitId(ids)
      case None => 1
      case Some(m) => m + 1
  }

  // ---------------------------------------------------------------------
  // Finding a row
  // ---------------------------------------------------------------------

  /** The first data row whose ID cell, as text, is `key` (the writers' match). */
  function FirstIdRow(rows: seq<Row>, key: string): (r: Option<nat>)
    ensures r.Some? ==> r.value < |rows| && rows[r.value].id == key
    ensures r.Some? ==> forall j :: 0 <= j < r.value ==> rows[j].id != key
    ensures r.None? ==> forall j :: 0 <= j < |rows| ==> rows[j].id != key
  {
    if rows == [] then None
    else if rows[0].id == key then Some(0)
    else match FirstIdRow(rows[1..], key)
      case None => None
      case Some(k) => Some(k + 1)
  }

  /** The first match is the one the scan stops at. */
  lemma FirstIdRowIs(rows: seq<Row>, key: string, m: nat)
    requires m < |rows| && rows[m].id == key
    requires forall j :: 0 <= j < m ==> rows[j].id != key
    ensures FirstIdRow(rows, key) == Some(m)
  {
  }

  /** Does the ID cell, read back as a record value, equal the integer `id`? */
  predicate IdIs(cell: string, id: int)
  {
    Numericise(cell) == Number(id)
  }

  /** The first record whose ID value equals `id` (the match `get_problem_by_id` makes). */
  function FindRecord(rows: seq<Row>, id: int): (r: Option<nat>)
    ensures r.Some? ==> r.value < |rows| && IdIs(rows[r.value].id, id)
    ensures r.Some? ==> forall j :: 0 <= j < r.value ==> !IdIs(rows[j].id, id)
    ensures r.None? ==> forall j :: 0 <= j < |rows| ==> !IdIs(rows[j].id, id)
  {
    if rows == [] then None
    else if IdIs(rows[0].id, id) then Some(0)
    else match FindRecord(rows[1..], id)
      case None => None
      case Some(k) => Some(k + 1)
  }

  function Lookup(rows: seq<Row>, id: int): Option<Row>
  {
    match FindRecord(rows, id)
    case None => None
    case Some(k) => Some(rows[k])
  }

  /** Every ID cell that reads as an integer is written as `str` of that integer. */
  predicate IdsCanonical(rows: seq<Row>)
  {
    forall i :: 0 <= i < |rows| ==> Canonical(rows[i].id)
  }

  /** On a canonical cell the numeric match and the text match agree. */
  lemma CellMatch(cell: string, id: int)
    requires Canonical(cell)
    ensures IdIs(cell, id) <==> cell == IntToString(id)
  {
    ParseIntToString(id);
  }

  /**
   * With canonical ID cells, the writers (which compare text) and the
   * lookup (which compares numbers) pick the same row.
   */
  lemma {:induction false} SameRowFound(rows: seq<Row>, id: int)
    requires IdsCanonical(rows)
    ensures FirstIdRow(rows, IntToString(id)) == FindRecord(rows, id)
  {
    if rows != [] {
      CellMatch(rows[0].id, id);
      SameRowFound(rows[1..], id);
    }
  }

  /** A non-canonical ID such as "007" is found by the lookup but not by the writers. */
  lemma PaddedIdSplitsTheMatches()
    ensures FindRecord([NewRow(7, "t", "d").(id := "007")], 7) == Some(0)
    ensures FirstIdRow([NewRow(7, "t", "d").(id := "007")], IntToString(7)) == None
  {
    var rows := [NewRow(7, "t", "d").(id := "007")];
    assert IntToString(7) == "7";
    assert DigitsValue("007") == 7 by {
      assert "007"[..2] == "00";
      assert "00"[..1] == "0";
    }
    assert IdIs(rows[0].id, 7);
  }

  // ---------------------------------------------------------------------
  // Writes
  // ---------------------------------------------------------------------

  /**
   * One call of a column writer: the first row whose ID text is `key` gets
   * the field overwritten, whatever it held; no match changes nothing.
   */
  function SetField(rows: seq<Row>, key: string, f: Field): (r: seq<Row>)
    ensures |r| == |rows|
    ensures IdCells(r) == IdCells(rows)
    ensures forall j :: 0 <= j < |rows| && FirstIdRow(rows, key) != Some(j) ==> r[j] == rows[j]
    ensures FirstIdRow(rows, key).Some? ==>
      var k := FirstIdRow(rows, key).value; r[k] == Written(rows[k], f)
  {
    match FirstIdRow(rows, key)
    case None => rows
    case Some(k) => rows[k := Written(rows[k], f)]
  }

  /** A write keeps every ID cell, so every later lookup finds the same row. */
  lemma SetFieldKeepsLookup(rows: seq<Row>, key: string, f: Field, id: int)
    ensures FindRecord(SetField(rows, key, f), id) == FindRecord(rows, id)
    ensures FirstIdRow(SetField(rows, key, f), key) == FirstIdRow(rows, key)
    ensures IdsCanonical(rows) ==> IdsCanonical(SetField(rows, key, f))
  {
    var r := SetField(rows, key, f);
    assert forall j :: 0 <= j < |rows| ==> r[j].id == rows[j].id by {
      assert forall j :: 0 <= j < |rows| ==> IdCells(r)[j] == IdCells(rows)[j];
    }
    SameIdsSameMatches(rows, r, key, id);
  }

  lemma {:induction false} SameIdsSameMatches(a: seq<Row>, b: seq<Row>, key: string, id: int)
    requires |a| == |b| && forall j :: 0 <= j < |a| ==> a[j].id == b[j].id
    ensures FindRecord(a, id) == FindRecord(b, id)
    ensures FirstIdRow(a, key) == FirstIdRow(b, key)
  {
    if a != [] {
      SameIdsSameMatches(a[1..], b[1..], key, id);
    }
  }

  /**
   * What a later lookup of `id` sees after a write keyed by `str(id)`: with
   * canonical IDs it is the record the lookup found before, with the field
   * overwritten, and no pending check stands in the way.
   */
  lemma LookupAfterWrite(rows: seq<Row>, id: int, f: Field)
    requires IdsCanonical(rows)
    ensures Lookup(SetField(rows, IntToString(id), f), id) ==
      match Lookup(rows, id) { case None => None case Some(row) => Some(Written(row, f)) }
  {
    SameRowFound(rows, id);
    SetFieldKeepsLookup(rows, IntToString(id), f, id);
  }

  /** A decided record is overwritten like any other: the store does not guard the status. */
  lemma StoreOverwritesDecided(rows: seq<Row>, id: int, status: string)
    requires IdsCanonical(rows)
    requires Lookup(rows, id).Some? && Lookup(rows, id).value.status != Pending
    ensures Lookup(SetField(rows, IntToString(id), StatusField(status)), id).value.status == status
  {
    LookupAfterWrite(rows, id, StatusField(status));
  }

  // ---------------------------------------------------------------------
  // Appending a problem
  // ---------------------------------------------------------------------

  /** The table after `add_problem` appended a row with the given id. */
  function Appended(rows: seq<Row>, id: int, text: string, createdAt: string): (r: seq<Row>)
    ensures |r| == |rows| + 1 && r[..|rows|] == rows
    ensures r[|rows|] == NewRow(id, text, createdAt)
  {
    rows + [NewRow(id, text, createdAt)]
  }

  /** Appending keeps the ID cells canonical, since the new ID is `str` of an integer. */
  lemma AppendKeepsCanonical(rows: seq<Row>, id: int, text: string, createdAt: string)
    requires IdsCanonical(rows)
    ensures IdsCanonical(Appended(rows, id, text, createdAt))
  {
    ParseIntToString(id);
  }

  /** The freshly allocated id is matched by no existing row, numerically or as text. */
  lemma NextIdIsFresh(rows: seq<Row>)
    requires IdsCanonical(rows)
    ensures var n := NextId(IdCells(rows), false);
      FindRecord(rows, n) == None && FirstIdRow(rows, IntToString(n)) == None
  {
    var n := NextId(IdCells(rows), false);
    NatToStringValue(n);
    forall j | 0 <= j < |rows| ensures !IdIs(rows[j].id, n) {
      CellMatch(rows[j].id, n);
      assert IdCells(rows)[j] == rows[j].id;
    }
    SameRowFound(rows, n);
  }

  /** After an append with a freshly allocated id, looking that id up yields the added row. */
  lemma LookupAfterAdd(rows: seq<Row>, text: string, createdAt: string)
    requires IdsCanonical(rows)
    ensures var n := NextId(IdCells(rows), false);
      Lookup(Appended(rows, n, text, createdAt), n) == Some(NewRow(n, text, createdAt))
  {
    var n := NextId(IdCells(rows), false);
    NextIdIsFresh(rows);
    var r := Appended(rows, n, text, createdAt);
    ParseIntToString(n);
    FindPastPrefix(rows, NewRow(n, text, createdAt), n);
  }

  lemma {:induction false} FindPastPrefix(rows: seq<Row>, last: Row, id: int)
    requires FindRecord(rows, id) == None && IdIs(last.id, id)
    ensures FindRecord(rows + [last], id) == Some(|rows|)
  {
    if rows != [] {
      assert (rows + [last])[1..] == rows[1..] + [last];
      FindPastPrefix(rows[1..], last, id);
    }
  }

  /** Ids handed out one after another grow by one. */
  lemma NextIdAfterAdd(rows: seq<Row>, text: string, createdAt: string)
    ensures var n := NextId(IdCells(rows), false);
      NextId(IdCells(Appended(rows, n, text, createdAt)), false) == n + 1
  {
    var ids0 := IdCells(rows);
    var n := NextId(ids0, false);
    var ids := IdCells(Appended(rows, n, text, createdAt));
    NatToStringValue(n);
    assert ids[|rows|] == NatToString(n);
    assert IsDigits(ids[|rows|]) && DigitsValue(ids[|rows|]) == n;
    var r := NextId(ids, false);
    assert r > n;
    var w :| 0 <= w < |ids| && IsDigits(ids[w]) && DigitsValue(ids[w]) == r - 1;
    if w < |rows| {
      assert ids[w] == rows[w].id == ids0[w];
    }
  }

  /** A failed ID read hands out 1 again, so two records can share an id. */
  lemma ReadFaultReusesOne(text: string, createdAt: string)
    ensures var rows := Appended([], 1, "first", createdAt);
      NextId(IdCells(rows), true) == 1 &&
      Lookup(Appended(rows, 1, text, createdAt), 1) == Some(NewRow(1, "first", createdAt))
  {
    var rows := Appended([], 1, "first", createdAt);
    ParseIntToString(1);
  }

  // ---------------------------------------------------------------------
  // Filtering and counting
  // ---------------------------------------------------------------------

  /** The records whose status is exactly `status`, in table order. */
  function Having(rows: seq<Row>, status: string): (r: seq<Row>)
    ensures |r| <= |rows|
    ensures forall x :: x in r ==> x in rows && x.status == status
    ensures forall i :: 0 <= i < |rows| && rows[i].status == status ==> rows[i] in r
  {
    if rows == [] then []
    else
      assert forall i :: 1 <= i < |rows| ==> rows[i] == rows[1..][i - 1];
      (if rows[0].status == status then [rows[0]] else []) + Having(rows[1..], status)
  }

  /** Filtering distributes over concatenation, which fixes the order of the result. */
  lemma {:induction false} HavingAppend(a: seq<Row>, b: seq<Row>, status: string)
    ensures Having(a + b, status) == Having(a, status) + Having(b, status)
  {
    if a != [] {
      assert (a + b)[0] == a[0];
      assert (a + b)[1..] == a[1..] + b;
      HavingAppend(a[1..], b, status);
      assert Having(a, status) == (if a[0].status == status then [a[0]] else []) + Having(a[1..], status);
    } else {
      assert a + b == b;
    }
  }

  /** The three decided/undecided counts together never exceed the number of records. */
  lemma {:induction false} StatusCountsBounded(rows: seq<Row>)
    ensures |Having(rows, Pending)| + |Having(rows, Approved)| + |Having(rows, Rejected)| <= |rows|
  {
    if rows != [] {
      StatusCountsBounded(rows[1..]);
    }
  }

  // ---------------------------------------------------------------------
  // Values a record is read back as
  // ---------------------------------------------------------------------

  /** The voter set a record's Voters value parses to. */
  function RowVoters(row: Row): set<nat>
  {
    VotersOf(Numericise(row.voters))
  }

  /** The problem text as the record hands it on: number-like text comes back as the number's `str`. */
  function RecordText(row: Row): (r: string)
    ensures ParseInt(row.text).None? ==> r == row.text
    ensures Canonical(row.text) ==> r == row.text
  {
    CellText(Numericise(row.text))
  }

  // ---------------------------------------------------------------------
  // The vote ledger on the table
  // ---------------------------------------------------------------------

  /** Which of the sheet requests of one `toggle_like` call fail. */
  datatype ToggleFaults = ToggleFaults(read: bool, likesWrite: bool, votersWrite: bool)

  const NoToggleFaults := ToggleFaults(false, false, false)

  /** `has_user_liked`: false for a missing record or a failed read, else membership in the ledger. */
  function HasLiked(rows: seq<Row>, id: int, u: nat, readFails: bool): (r: bool)
    ensures r ==> !readFails && Lookup(rows, id).Some?
    ensures !readFails && Lookup(rows, id).Some? ==> (r <==> u in RowVoters(Lookup(rows, id).value))
  {
    if readFails then false
    else match Lookup(rows, id)
      case None => false
      case Some(row) => u in RowVoters(row)
  }

  /**
   * `toggle_like`: on a found record, toggle the voter in the parsed
   * ledger, write the new count to column 3 and the serialised ledger to
   * column 6 (each write may fail and is then skipped; its failure is not
   * reported), and report the new count and whether the vote was added.
   */
  function Toggled(rows: seq<Row>, id: int, u: nat, f: ToggleFaults): (r: (seq<Row>, Option<nat>, bool))
    ensures f.read || Lookup(rows, id).None? ==> r == (rows, None, false)
    ensures !f.read && Lookup(rows, id).Some? ==>
      var S := RowVoters(Lookup(rows, id).value);
      r.1 == Some(|Toggle(S, u).0|) && (r.2 <==> u !in S)
    ensures |r.0| == |rows| && IdCells(r.0) == IdCells(rows)
  {
    if f.read then (rows, None, false)
    else match Lookup(rows, id)
      case None => (rows, None, false)
      case Some(row) =>
        var t := Toggle(RowVoters(row), u);
        (WriteCountAndLedger(rows, IntToString(id), |t.0|, SerializeVoters(t.0), f), Some(|t.0|), t.1)
  }

  /** The two writes of `toggle_like`: the count, then the ledger, each skipped when it fails. */
  function WriteCountAndLedger(rows: seq<Row>, key: string, count: nat, ledger: string, f: ToggleFaults): (r: seq<Row>)
    ensures |r| == |rows| && IdCells(r) == IdCells(rows)
  {
    var afterLikes := if f.likesWrite then rows else SetField(rows, key, LikesField(count));
    if f.votersWrite then afterLikes else SetField(afterLikes, key, VotersField(ledger))
  }

  /** With canonical IDs both writes land on the record the lookup finds. */
  lemma CountAndLedgerWritten(rows: seq<Row>, id: int, count: nat, ledger: string)
    requires IdsCanonical(rows)
    ensures var r := WriteCountAndLedger(rows, IntToString(id), count, ledger, NoToggleFaults);
      IdsCanonical(r) &&
      Lookup(r, id) == match Lookup(rows, id) { case None => None case Some(row) => Some(row.(likes := count, voters := ledger)) }
  {
    var key := IntToString(id);
    var afterLikes := SetField(rows, key, LikesField(count));
    LookupAfterWrite(rows, id, LikesField(count));
    SetFieldKeepsLookup(rows, key, LikesField(count), id);
    LookupAfterWrite(afterLikes, id, VotersField(ledger));
    SetFieldKeepsLookup(afterLikes, key, VotersField(ledger), id);
  }

  /** The record a fault-free toggle leaves: count and ledger of the toggled set. */
  lemma ToggleWrites(rows: seq<Row>, id: int, u: nat)
    requires IdsCanonical(rows) && Lookup(rows, id).Some?
    ensures var row := Lookup(rows, id).value;
      var voters := Toggle(RowVoters(row), u).0;
      Lookup(Toggled(rows, id, u, NoToggleFaults).0, id) ==
        Some(row.(likes := |voters|, voters := SerializeVoters(voters)))
    ensures IdsCanonical(Toggled(rows, id, u, NoToggleFaults).0)
  {
    var voters := Toggle(RowVoters(Lookup(rows, id).value), u).0;
    CountAndLedgerWritten(rows, id, |voters|, SerializeVoters(voters));
  }

  /** After a fault-free toggle the ledger reads back as the toggled set, for positive voter ids. */
  lemma LedgerAfterToggle(rows: seq<Row>, id: int, u: nat)
    requires IdsCanonical(rows) && Lookup(rows, id).Some?
    requires u > 0 && 0 !in RowVoters(Lookup(rows, id).value)
    ensures var S := RowVoters(Lookup(rows, id).value);
      var after := Toggled(rows, id, u, NoToggleFaults).0;
      Lookup(after, id).Some? && RowVoters(Lookup(after, id).value) == Toggle(S, u).0 &&
      Lookup(after, id).value.likes == |Toggle(S, u).0|
  {
    var S := RowVoters(Lookup(rows, id).value);
    ToggleWrites(rows, id, u);
    StoredLedgerRoundTrip(Toggle(S, u).0);
  }

  /**
   * Immediately after a toggle reporting `added`, `has_user_liked` answers
   * `added` for the same voter.
   */
  lemma HasLikedAfterToggle(rows: seq<Row>, id: int, u: nat)
    requires IdsCanonical(rows) && u > 0 && Lookup(rows, id).Some?
    ensures var r := Toggled(rows, id, u, NoToggleFaults);
      r.1.Some? && HasLiked(r.0, id, u, false) == r.2
  {
    ToggleWrites(rows, id, u);
    StoredLedgerReadBack(Toggle(RowVoters(Lookup(rows, id).value), u).0);
  }

  /**
   * Toggling the same voter twice restores the parsed ledger and sets the
   * count to its size; the two calls report opposite `added` flags.
   */
  lemma ToggleTwiceRestores(rows: seq<Row>, id: int, u: nat)
    requires IdsCanonical(rows) && u > 0
    requires Lookup(rows, id).Some? && 0 !in RowVoters(Lookup(rows, id).value)
    ensures var S := RowVoters(Lookup(rows, id).value);
      var first := Toggled(rows, id, u, NoToggleFaults);
      var second := Toggled(first.0, id, u, NoToggleFaults);
      Lookup(second.0, id).Some? &&
      RowVoters(Lookup(second.0, id).value) == S &&
      Lookup(second.0, id).value.likes == |S| &&
      second.1 == Some(|S|) && second.2 == !first.2
  {
    var S := RowVoters(Lookup(rows, id).value);
    var first := Toggled(rows, id, u, NoToggleFaults);
    LedgerAfterToggle(rows, id, u);
    ToggleWrites(rows, id, u);
    ToggleTwice(S, u);
    LedgerAfterToggle(first.0, id, u);
  }

  /**
   * When the ledger write fails the call still reports the new count, but
   * the stored ledger is the old one: the count cell and the ledger then
   * disagree.
   */
  lemma FailedLedgerWriteIsUnreported(rows: seq<Row>, id: int, u: nat)
    requires IdsCanonical(rows) && Lookup(rows, id).Some?
    ensures var row := Lookup(rows, id).value;
      var r := Toggled(rows, id, u, ToggleFaults(false, false, true));
      r.1 == Some(|Toggle(RowVoters(row), u).0|) &&
      Lookup(r.0, id) == Some(row.(likes := |Toggle(RowVoters(row), u).0|)) &&
      RowVoters(Lookup(r.0, id).value) == RowVoters(row)
  {
    var row := Lookup(rows, id).value;
    LookupAfterWrite(rows, id, LikesField(|Toggle(RowVoters(row), u).0|));
  }
}
