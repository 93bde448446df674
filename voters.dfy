/**
 * The vote ledger's cell format (services/google_sheets.py): the voter
 * set is stored as the ascending, comma-joined decimals of its members,
 * and read back by splitting on commas and keeping the all-digit tokens.
 */
module VoterLedger {
  import opened Wrappers
  import opened Decimal
  import opened PyText

  /**
   * A cell as the sheet's record reader hands it over: a cell that reads
   * as an integer comes back as a number, anything else as text.
   */
  datatype CellValue = Number(n: int) | Text(s: string)

  function Numericise(s: string): (v: CellValue)
    ensures v.Number? <==> ParseInt(s).Some?
    ensures v.Text? ==> v.s == s
  {
    match ParseInt(s)
    case Some(n) => Number(n)
    case None => Text(s)
  }

  /** Python truthiness: `0` and `""` are false. */
  predicate Truthy(v: CellValue)
  {
    match v
    case Number(n) => n != 0
    case Text(s) => s != ""
  }

  /** `str(v)`, the coercion applied to a numeric cell. */
  function CellText(v: CellValue): string
  {
    match v
    case Number(n) => IntToString(n)
    case Text(s) => s
  }

  /** A blank, whitespace-only or non-numeric token adds no voter. */
  predicate VoterToken(t: string) { IsDigits(Strip(t)) }

  function TokenValue(t: string): nat
    requires VoterToken(t)
  {
    DigitsValue(Strip(t))
  }

  /** Split on commas, strip every token and keep the all-digit ones. */
  function ParseVoters(s: string): set<nat>
  {
    set t | t in Split(s, ',') && VoterToken(t) :: TokenValue(t)
  }

  /** The voter set of a stored cell: nothing when the cell is falsy. */
  function VotersOf(v: CellValue): (r: set<nat>)
    ensures !Truthy(v) ==> r == {}
  {
    if Truthy(v) then ParseVoters(CellText(v)) else {}
  }

  /** The least member of a non-empty set. */
  function MinOf(S: set<nat>): (m: nat)
    requires S != {}
    ensures m in S && forall u :: u in S ==> m <= u
  {
    MinExists(S);
    var m :| m in S && forall u :: u in S ==> m <= u;
    m
  }

  lemma MinExists(S: set<nat>)
    requires S != {}
    ensures exists m :: m in S && forall u :: u in S ==> m <= u
  {
    var x :| x in S;
    LeastFrom(S, 0, x);
  }

  /** Counting up from a lower bound of S reaches its least member. */
  lemma {:induction false} LeastFrom(S: set<nat>, k: nat, x: nat)
    requires x in S && k <= x && forall u :: u in S ==> k <= u
    ensures exists m :: m in S && forall u :: u in S ==> m <= u
    decreases x - k
  {
    if k !in S {
      LeastFrom(S, k + 1, x);
    }
  }

  /** `sorted(S)`: the members of S in strictly ascending order. */
  function Ascending(S: set<nat>): (r: seq<nat>)
    ensures |r| == |S|
    ensures forall i :: 0 <= i < |r| ==> r[i] in S
    ensures forall u :: u in S ==> u in r
    ensures forall i, j :: 0 <= i < j < |r| ==> r[i] < r[j]
    decreases |S|
  {
    if S == {} then []
    else
      var m := MinOf(S);
      var rest := Ascending(S - {m});
      FrontMembers(S, m, rest);
      FrontOrdered(S, m, rest);
      forall u | u in S ensures u in [m] + rest {
        if u != m {
          FrontKeepsMembers(u, m, rest, S - {m});
        }
      }
      [m] + rest
  }

  /** Putting the least member in front of the ascending rest. */
  lemma FrontMembers(S: set<nat>, m: nat, rest: seq<nat>)
    requires m in S && forall i :: 0 <= i < |rest| ==> rest[i] in S - {m}
    ensures forall i :: 0 <= i < |[m] + rest| ==> ([m] + rest)[i] in S
  {
    forall i | 0 < i < |[m] + rest| ensures ([m] + rest)[i] in S {
      assert ([m] + rest)[i] == rest[i - 1];
    }
  }

  lemma FrontOrdered(S: set<nat>, m: nat, rest: seq<nat>)
    requires forall u :: u in S ==> m <= u
    requires forall i :: 0 <= i < |rest| ==> rest[i] in S - {m}
    requires forall i, j :: 0 <= i < j < |rest| ==> rest[i] < rest[j]
    ensures forall i, j :: 0 <= i < j < |[m] + rest| ==> ([m] + rest)[i] < ([m] + rest)[j]
  {
    var r := [m] + rest;
    forall i | 0 < i < |r| ensures m < r[i] {
      assert r[i] == rest[i - 1] && rest[i - 1] in S - {m};
    }
    assert forall i, j :: 0 < i < j < |r| ==> r[i] == rest[i - 1] && r[j] == rest[j - 1];
  }

  lemma FrontKeepsMembers(u: nat, m: nat, rest: seq<nat>, T: set<nat>)
    requires u in T && forall v :: v in T ==> v in rest
    ensures u in [m] + rest
  {
    var k :| 0 <= k < |rest| && rest[k] == u;
    assert ([m] + rest)[k + 1] == u;
  }

  /** `map(str, xs)` */
  function Decimals(xs: seq<nat>): (r: seq<string>)
    ensures |r| == |xs|
    ensures forall i :: 0 <= i < |xs| ==> r[i] == IntToString(xs[i])
  {
    if xs == [] then [] else [IntToString(xs[0])] + Decimals(xs[1..])
  }

  /** `','.join(map(str, sorted(S)))`; the empty set gives `""`. */
  function SerializeVoters(S: set<nat>): string
  {
    Join(Decimals(Ascending(S)), ',')
  }

  lemma DecimalChars(n: nat)
    ensures ',' !in IntToString(n) && NoSpace(IntToString(n))
  {
    var s := IntToString(n);
    assert forall i :: 0 <= i < |s| ==> s[i] != ',' && !IsSpace(s[i]);
  }

  lemma DecimalToken(n: nat)
    ensures ',' !in IntToString(n)
    ensures VoterToken(IntToString(n)) && TokenValue(IntToString(n)) == n
  {
    var s := IntToString(n);
    assert s == NatToString(n);
    DecimalChars(n);
    StripNoSpace(s);
    assert Strip(s) == s;
    assert IsDigits(s);
    NatToStringValue(n);
    assert DigitsValue(s) == n;
  }

  /** Parsing text whose comma-separated tokens are the decimals of xs gives the members of xs. */
  lemma ParseDecimals(s: string, xs: seq<nat>)
    requires Split(s, ',') == Decimals(xs)
    ensures ParseVoters(s) == set i | 0 <= i < |xs| :: xs[i]
  {
    ParsedAreListed(s, xs);
    ListedAreParsed(s, xs);
  }

  lemma ParsedAreListed(s: string, xs: seq<nat>)
    requires Split(s, ',') == Decimals(xs)
    ensures forall u :: u in ParseVoters(s) ==> exists i :: 0 <= i < |xs| && xs[i] == u
  {
    forall u | u in ParseVoters(s) ensures exists i :: 0 <= i < |xs| && xs[i] == u {
      ParsedIsListed(s, xs, u);
    }
  }

  lemma ParsedIsListed(s: string, xs: seq<nat>, u: nat)
    requires Split(s, ',') == Decimals(xs) && u in ParseVoters(s)
    ensures exists i :: 0 <= i < |xs| && xs[i] == u
  {
    var t :| t in Decimals(xs) && VoterToken(t) && u == TokenValue(t);
    var i := DecimalIndex(xs, t);
    DecimalToken(xs[i]);
  }

  /** Where a token of `map(str, xs)` comes from. */
  lemma DecimalIndex(xs: seq<nat>, t: string) returns (i: nat)
    requires t in Decimals(xs)
    ensures i < |xs| && t == IntToString(xs[i])
  {
    var r := Decimals(xs);
    i :| i < |r| && r[i] == t;
  }

  lemma ListedAreParsed(s: string, xs: seq<nat>)
    requires Split(s, ',') == Decimals(xs)
    ensures forall i :: 0 <= i < |xs| ==> xs[i] in ParseVoters(s)
  {
    var tokens := Split(s, ',');
    forall i | 0 <= i < |xs| ensures xs[i] in ParseVoters(s) {
      DecimalToken(xs[i]);
      assert tokens[i] in tokens;
    }
  }

  lemma SerializedTokens(S: set<nat>)
    requires S != {}
    ensures Split(SerializeVoters(S), ',') == Decimals(Ascending(S))
  {
    var xs := Ascending(S);
    var parts := Decimals(xs);
    forall i | 0 <= i < |parts| ensures ',' !in parts[i] {
      DecimalToken(xs[i]);
    }
    SplitJoin(parts, ',');
  }

  lemma EmptyTextHasNoVoters()
    ensures ParseVoters("") == {}
  {
    assert Split("", ',') == [""];
    assert !VoterToken("");
  }

  /** The members listed by an enumeration of S are S. */
  lemma ListedSet(S: set<nat>, xs: seq<nat>)
    requires forall i :: 0 <= i < |xs| ==> xs[i] in S
    requires forall u :: u in S ==> u in xs
    ensures (set i | 0 <= i < |xs| :: xs[i]) == S
  {
    var L := set i | 0 <= i < |xs| :: xs[i];
    forall u | u in S ensures u in L {
      var k :| 0 <= k < |xs| && xs[k] == u;
    }
  }

  /** The ledger round trip: parsing a serialised voter set gives the same set. */
  lemma ParseSerializeRoundTrip(S: set<nat>)
    ensures ParseVoters(SerializeVoters(S)) == S
  {
    if S == {} {
      assert SerializeVoters(S) == "";
      EmptyTextHasNoVoters();
    } else {
      var xs := Ascending(S);
      SerializedTokens(S);
      ParseDecimals(SerializeVoters(S), xs);
      ListedSet(S, xs);
    }
  }

  /** A serialised set is canonical: if it reads as a number, it is the str of that number. */
  lemma SerializedIsCanonical(S: set<nat>)
    ensures Canonical(SerializeVoters(S))
  {
    var parts := Decimals(Ascending(S));
    if |parts| >= 2 {
      JoinHasSeparator(parts, ',');
      CommaIsNotInt(SerializeVoters(S), |parts[0]|);
    } else if |parts| == 1 {
      ParseIntToString(Ascending(S)[0]);
    }
  }

  /** Two or more voters serialise with a comma, so never as "0". */
  lemma SeveralVotersNotZero(S: set<nat>)
    requires |S| >= 2
    ensures SerializeVoters(S) != "0"
  {
    var parts := Decimals(Ascending(S));
    JoinHasSeparator(parts, ',');
  }

  /** One voter serialises as its decimal. */
  lemma OneVoterText(x: nat)
    ensures SerializeVoters({x}) == IntToString(x)
  {
    var xs := Ascending({x});
    assert xs[0] in {x};
    assert xs == [x];
  }

  /** The text "0" is the serialisation of exactly the set holding voter 0. */
  lemma SerializeZeroOnly(S: set<nat>)
    ensures SerializeVoters(S) == "0" <==> S == {0}
  {
    OneVoterText(0);
    if |S| >= 2 {
      SeveralVotersNotZero(S);
      assert |{0}| == 1;
    } else if |S| == 1 {
      var x :| x in S;
      assert S == {x} by {
        assert |S - {x}| == 0;
        assert S - {x} == {};
      }
      OneVoterText(x);
      if x != 0 {
        ParseIntToString(x);
        ParseIntToString(0);
      }
    } else {
      assert SerializeVoters(S) == "";
    }
  }

  /**
   * What the ledger reads back after a serialised set was written to the
   * cell: the same set, except that the lone voter 0 is written as "0",
   * comes back as the number 0 and is then taken for an empty cell.
   */
  lemma StoredLedgerReadBack(S: set<nat>)
    ensures VotersOf(Numericise(SerializeVoters(S))) == if S == {0} then {} else S
  {
    var s := SerializeVoters(S);
    SerializedIsCanonical(S);
    SerializeZeroOnly(S);
    ParseSerializeRoundTrip(S);
    var v := Numericise(s);
    assert CellText(v) == s;
    if S == {0} {
      ParseIntToString(0);
      assert v == Number(0);
    } else if v.Number? {
      assert v.n != 0 by { ParseIntToString(0); }
    } else if s == "" {
      EmptyTextHasNoVoters();
    }
  }

  /** Voter ids are positive, so the stored cell round-trips to the same set. */
  lemma StoredLedgerRoundTrip(S: set<nat>)
    requires 0 !in S
    ensures VotersOf(Numericise(SerializeVoters(S))) == S
  {
    StoredLedgerReadBack(S);
  }

  /** The counterexample behind the hypothesis above. */
  lemma LoneZeroVoterIsLost()
    ensures SerializeVoters({0}) == "0"
    ensures VotersOf(Numericise(SerializeVoters({0}))) == {}
  {
    StoredLedgerReadBack({0});
    SerializeZeroOnly({0});
  }

  /** Toggle: remove a present voter, add an absent one; the flag says which. */
  function Toggle(S: set<nat>, u: nat): (r: (set<nat>, bool))
    ensures r.1 <==> u !in S
    ensures u in r.0 <==> r.1
    ensures r.0 - {u} == S - {u}
    ensures |r.0| == if r.1 then |S| + 1 else |S| - 1
  {
    if u in S then (S - {u}, false) else (S + {u}, true)
  }

  /** Toggling the same voter twice restores the set, with the opposite flag. */
  lemma ToggleTwice(S: set<nat>, u: nat)
    ensures Toggle(Toggle(S, u).0, u).0 == S
    ensures Toggle(Toggle(S, u).0, u).1 == !Toggle(S, u).1
  {
    if u in S {
      assert S - {u} + {u} == S;
    } else {
      assert S + {u} - {u} == S;
    }
  }
}
