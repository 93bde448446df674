/**
 * The record store (`GoogleSheetsService` in services/google_sheets.py):
 * a worksheet whose rows the store methods update in place, with a log of
 * the requests sent to the spreadsheet. Each method takes flags saying
 * which of its requests raise; the store catches those the source catches.
 */
module RecordStore {
  import opened Wrappers
  import opened Decimal
  import opened VoterLedger
  import opened Sheet

  /** One request to the spreadsheet: `col_values(1)`, `get_all_records()`, `update_cell`, `append_row`. */
  datatype Request = ColumnRead | RecordsRead | CellWrite(row: nat, col: nat) | RowAppend

  /** The requests one column writer sends: the ID column, then the cell of the matching row. */
  function WriterRequests(rows: seq<Row>, id: int, f: Field, fails: bool): seq<Request>
  {
    [ColumnRead] +
    if fails then []
    else match FirstIdRow(rows, IntToString(id))
      case None => []
      case Some(k) => [CellWrite(k + 2, Column(f))]
  }

  /** The requests `toggle_like` sends. */
  function ToggleRequests(rows: seq<Row>, id: int, u: nat, f: ToggleFaults): seq<Request>
  {
    [RecordsRead] +
    if f.read || Lookup(rows, id).None? then []
    else
      var voters := Toggle(RowVoters(Lookup(rows, id).value), u).0;
      WriterRequests(rows, id, LikesField(|voters|), f.likesWrite) +
      WriterRequests(rows, id, VotersField(SerializeVoters(voters)), f.votersWrite)
  }

  lemma AppendAssoc<T>(a: seq<T>, b: seq<T>, c: seq<T>)
    ensures a + b + c == a + (b + c)
  {
  }

  /** A first write leaves the ID cells alone, so a second writer finds the same row. */
  lemma SecondWriteSameRow(rows: seq<Row>, id: int, a: Field, aFails: bool, b: Field, bFails: bool)
    ensures var mid := if aFails then rows else SetField(rows, IntToString(id), a);
      WriterRequests(mid, id, b, bFails) == WriterRequests(rows, id, b, bFails) &&
      (IdsCanonical(rows) ==> IdsCanonical(mid))
  {
    if !aFails {
      var key := IntToString(id);
      SetFieldKeepsLookup(rows, key, a, id);
      assert FirstIdRow(SetField(rows, key, a), key) == FirstIdRow(rows, key);
    }
  }

  /** The header cell is never the text of an integer, so no writer ever targets row 1. */
  lemma HeaderIsNoId(id: int)
    ensures HeaderId != IntToString(id)
  {
    assert !IsDigit(HeaderId[0]);
  }

  class Worksheet {
    /** The data rows below the header, in sheet order: row k is sheet row k + 2. */
    var rows: seq<Row>
    /** Every request sent so far, oldest first. */
    var requests: seq<Request>

    constructor (initial: seq<Row>)
      ensures rows == initial && requests == []
    {
      rows := initial;
      requests := [];
    }

    /** What `col_values(1)` returns: the header cell, then the ID cells. */
    function IdColumn(): seq<string>
      reads this
    {
      [HeaderId] + IdCells(rows)
    }

    /**
     * The scan `enumerate(col_values(1), 1)` with early return: the 1-based
     * sheet row of the first ID cell equal to `key`, which is `str` of an
     * id and so never the header; a found row is therefore a data row.
     */
    method LocateRow(key: string) returns (rowNum: Option<nat>)
      requires key != HeaderId
      ensures rowNum.Some? ==> 2 <= rowNum.value <= |rows| + 1
      ensures rowNum == match FirstIdRow(rows, key)
        case None => None
        case Some(k) => Some(k + 2)
    {
      var column := IdColumn();
      var i := 0;
      while i < |column|
        invariant 0 <= i <= |column|
        invariant i > 0 ==> forall k :: 0 <= k < i - 1 ==> rows[k].id != key
      {
        if column[i] == key {
          FirstIdRowIs(rows, key, i - 1);
          return Some(i + 1);
        }
        i := i + 1;
      }
      return None;
    }

    /** `update_cell(rowNum, Column(f), value)` on a data row. */
    method UpdateCell(rowNum: nat, f: Field)
      requires 2 <= rowNum <= |rows| + 1
      modifies this
      ensures rows == old(rows)[rowNum - 2 := Written(old(rows)[rowNum - 2], f)]
      ensures requests == old(requests) + [CellWrite(rowNum, Column(f))]
    {
      rows := rows[rowNum - 2 := Written(rows[rowNum - 2], f)];
      requests := requests + [CellWrite(rowNum, Column(f))];
    }

    /**
     * The shared body of the three column writers: read the ID column, find
     * the first row whose ID text is `str(problemId)` and overwrite one
     * cell of it. True exactly when a row matched and no request failed.
     */
    method WriteField(problemId: int, f: Field, fails: bool) returns (ok: bool)
      modifies this
      ensures ok == (!fails && FirstIdRow(old(rows), IntToString(problemId)).Some?)
      ensures rows == if fails then old(rows) else SetField(old(rows), IntToString(problemId), f)
      ensures requests == old(requests) + WriterRequests(old(rows), problemId, f, fails)
    {
      requests := requests + [ColumnRead];
      if fails {
        return false;
      }
      HeaderIsNoId(problemId);
      var rowNum := LocateRow(IntToString(problemId));
      match rowNum {
        case None =>
          ok := false;
        case Some(n) =>
          assert FirstIdRow(old(rows), IntToString(problemId)) == Some(n - 2);
          UpdateCell(n, f);
          assert requests == old(requests) + ([ColumnRead] + [CellWrite(n, Column(f))]);
          ok := true;
      }
    }

    /** `update_status`: overwrite column 4 of the matching row, with no check of the current status. */
    method UpdateStatus(problemId: int, status: string, fails: bool) returns (ok: bool)
      modifies this
      ensures ok == (!fails && FirstIdRow(old(rows), IntToString(problemId)).Some?)
      ensures rows == if fails then old(rows) else SetField(old(rows), IntToString(problemId), StatusField(status))
      ensures requests == old(requests) + WriterRequests(old(rows), problemId, StatusField(status), fails)
    {
      ok := WriteField(problemId, StatusField(status), fails);
    }

    /** `update_likes`: overwrite column 3 of the matching row. */
    method UpdateLikes(problemId: int, count: int, fails: bool) returns (ok: bool)
      modifies this
      ensures ok == (!fails && FirstIdRow(old(rows), IntToString(problemId)).Some?)
      ensures rows == if fails then old(rows) else SetField(old(rows), IntToString(problemId), LikesField(count))
      ensures requests == old(requests) + WriterRequests(old(rows), problemId, LikesField(count), fails)
    {
      ok := WriteField(problemId, LikesField(count), fails);
    }

    /** `_update_liked_users`: overwrite column 6 of the matching row with the serialised ledger. */
    method UpdateLikedUsers(problemId: int, ledger: string, fails: bool) returns (ok: bool)
      modifies this
      ensures ok == (!fails && FirstIdRow(old(rows), IntToString(problemId)).Some?)
      ensures rows == if fails then old(rows) else SetField(old(rows), IntToString(problemId), VotersField(ledger))
      ensures requests == old(requests) + WriterRequests(old(rows), problemId, VotersField(ledger), fails)
    {
      ok := WriteField(problemId, VotersField(ledger), fails);
    }

    /** `_get_next_id`: read the ID column below the header and allocate from it. */
    method NextFreeId(readFails: bool) returns (id: nat)
      modifies this`requests
      ensures id == NextId(IdCells(rows), readFails)
      ensures requests == old(requests) + [ColumnRead]
    {
      requests := requests + [ColumnRead];
      if readFails {
        return 1;
      }
      var below := IdColumn()[1..];
      assert below == IdCells(rows);
      id := NextId(below, false);
    }

    /**
     * `add_problem`: allocate an id and append the row
     * [id, text, 0, "pending", createdAt]. A failed append raises, which
     * is `None` here; a failed ID read still allocates (id 1).
     */
    method AddProblem(text: string, createdAt: string, idReadFails: bool, appendFails: bool) returns (id: Option<nat>)
      modifies this
      ensures var n := NextId(IdCells(old(rows)), idReadFails);
        id == (if appendFails then None else Some(n)) &&
        rows == if appendFails then old(rows) else Appended(old(rows), n, text, createdAt)
      ensures requests == old(requests) + [ColumnRead, RowAppend]
      ensures old(IdsCanonical(rows)) ==> IdsCanonical(rows)
    {
      var next := NextFreeId(idReadFails);
      requests := requests + [RowAppend];
      if appendFails {
        return None;
      }
      if IdsCanonical(rows) {
        AppendKeepsCanonical(rows, next, text, createdAt);
      }
      rows := Appended(rows, next, text, createdAt);
      id := Some(next);
    }

    /** `get_problem_by_id`: the first record whose ID value equals `problemId`; `None` on a failed read. */
    method GetProblemById(problemId: int, fails: bool) returns (record: Option<Row>)
      modifies this`requests
      ensures record == if fails then None else Lookup(rows, problemId)
      ensures requests == old(requests) + [RecordsRead]
    {
      requests := requests + [RecordsRead];
      if fails {
        return None;
      }
      var i := 0;
      while i < |rows|
        invariant 0 <= i <= |rows|
        invariant forall j :: 0 <= j < i ==> !IdIs(rows[j].id, problemId)
      {
        if IdIs(rows[i].id, problemId) {
          return Some(rows[i]);
        }
        i := i + 1;
      }
      return None;
    }

    /** `get_pending_problems`: the records with status "pending", in order; empty on a failed read. */
    method GetPendingProblems(fails: bool) returns (pending: seq<Row>)
      modifies this`requests
      ensures pending == if fails then [] else Having(rows, Pending)
      ensures requests == old(requests) + [RecordsRead]
    {
      requests := requests + [RecordsRead];
      pending := if fails then [] else Having(rows, Pending);
    }

    /** `get_all_records()` as the statistics commands call it directly; `None` when it raises. */
    method AllRecords(fails: bool) returns (records: Option<seq<Row>>)
      modifies this`requests
      ensures records == if fails then None else Some(rows)
      ensures requests == old(requests) + [RecordsRead]
    {
      requests := requests + [RecordsRead];
      records := if fails then None else Some(rows);
    }

    /** `has_user_liked`: membership of the voter in the record's parsed ledger. */
    method HasUserLiked(problemId: int, u: nat, fails: bool) returns (liked: bool)
      modifies this`requests
      ensures liked == HasLiked(rows, problemId, u, fails)
      ensures requests == old(requests) + [RecordsRead]
    {
      var record := GetProblemById(problemId, fails);
      if record.None? {
        return false;
      }
      var cell := Numericise(record.value.voters);
      if !Truthy(cell) {
        return false;
      }
      var voters := ParseVoters(CellText(cell));
      liked := u in voters;
    }

    /**
     * The ledger step of `toggle_like` on the record's Voters value: parse
     * it (nothing when falsy), then remove a present voter or add an
     * absent one.
     */
    static method ToggleVoter(cell: CellValue, u: nat) returns (voters: set<nat>, added: bool)
      ensures (voters, added) == Toggle(VotersOf(cell), u)
    {
      voters := {};
      if Truthy(cell) {
        voters := ParseVoters(CellText(cell));
      }
      if u in voters {
        voters := voters - {u};
        added := false;
      } else {
        voters := voters + {u};
        added := true;
      }
    }

    /** The two writes of `toggle_like`: `update_likes`, then `_update_liked_users`; their results are dropped. */
    method WriteCountAndLedgerCells(problemId: int, count: nat, ledger: string, f: ToggleFaults)
      modifies this
      ensures rows == WriteCountAndLedger(old(rows), IntToString(problemId), count, ledger, f)
      ensures requests == old(requests) + (WriterRequests(old(rows), problemId, LikesField(count), f.likesWrite) +
        WriterRequests(old(rows), problemId, VotersField(ledger), f.votersWrite))
      ensures old(IdsCanonical(rows)) ==> IdsCanonical(rows)
    {
      SecondWriteSameRow(rows, problemId, LikesField(count), f.likesWrite, VotersField(ledger), f.votersWrite);
      ghost var likesRequests := WriterRequests(rows, problemId, LikesField(count), f.likesWrite);
      ghost var votersRequests := WriterRequests(rows, problemId, VotersField(ledger), f.votersWrite);
      var _ := UpdateLikes(problemId, count, f.likesWrite);
      var _ := UpdateLikedUsers(problemId, ledger, f.votersWrite);
      AppendAssoc(old(requests), likesRequests, votersRequests);
    }

    /**
     * `toggle_like`: remove a present voter or add an absent one, then
     * write the count and the ledger. The results of the two writes are
     * ignored, so the reported count does not depend on them.
     */
    method ToggleLike(problemId: int, u: nat, f: ToggleFaults) returns (count: Option<nat>, added: bool)
      modifies this
      ensures var r := Toggled(old(rows), problemId, u, f);
        rows == r.0 && count == r.1 && added == r.2
      ensures requests == old(requests) + ToggleRequests(old(rows), problemId, u, f)
      ensures old(IdsCanonical(rows)) ==> IdsCanonical(rows)
    {
      ghost var before := rows;
      var record := GetProblemById(problemId, f.read);
      if record.None? {
        assert ToggleRequests(before, problemId, u, f) == [RecordsRead] + [];
        return None, false;
      }
      var voters, added' := ToggleVoter(Numericise(record.value.voters), u);
      added := added';
      ghost var readDone := requests;
      WriteCountAndLedgerCells(problemId, |voters|, SerializeVoters(voters), f);
      AppendAssoc(old(requests), [RecordsRead], requests[|readDone|..]);
      assert requests == old(requests) + [RecordsRead] + requests[|readDone|..];
      return Some(|voters|), added;
    }
  }
}
