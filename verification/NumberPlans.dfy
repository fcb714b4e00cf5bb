/** The number plan: a map of number ranges searched for the longest that begins a number. */
module NumberPlans {
  import opened Basics

  datatype NumberRow = NumberRow(plmn: string, numberRange: string, numberLength: int, destinationGroup: string)

  datatype Lookup = Found(row: NumberRow) | NotLoaded | UnknownCarrier

  predicate IsPrefix(p: string, s: string) {
    |p| <= |s| && s[..|p|] == p
  }

  /** The rows by network, a later row replacing an earlier one of the same network. */
  function ByNetwork(rows: seq<NumberRow>): map<string, NumberRow> {
    if rows == [] then map[] else
    var last := rows[|rows| - 1];
    ByNetwork(rows[..|rows| - 1])[last.plmn := last]
  }

  /** No later row is of the same network. */
  predicate LastOfNetwork(rows: seq<NumberRow>, i: nat) {
    i < |rows| && forall j :: i < j < |rows| ==> rows[j].plmn != rows[i].plmn
  }

  lemma {:induction false} LastStored(rows: seq<NumberRow>, i: nat)
    requires LastOfNetwork(rows, i)
    ensures rows[i].plmn in ByNetwork(rows) && ByNetwork(rows)[rows[i].plmn] == rows[i]
    decreases |rows|
  {
    if i < |rows| - 1 { LastStored(rows[..|rows| - 1], i); }
  }

  lemma {:induction false} StoredLast(rows: seq<NumberRow>, plmn: string) returns (i: nat)
    requires plmn in ByNetwork(rows)
    ensures LastOfNetwork(rows, i) && rows[i].plmn == plmn
    decreases |rows|
  {
    var n := |rows| - 1;
    if rows[n].plmn == plmn { return n; }
    i := StoredLast(rows[..n], plmn);
  }

  /** The rows kept are those that no later row of the same network replaced. */
  lemma KeptRows(rows: seq<NumberRow>, row: NumberRow)
    ensures row in ByNetwork(rows).Values <==> exists i: nat :: LastOfNetwork(rows, i) && rows[i] == row
  {
    if row in ByNetwork(rows).Values {
      var plmn :| plmn in ByNetwork(rows) && ByNetwork(rows)[plmn] == row;
      var i := StoredLast(rows, plmn);
      LastStored(rows, i);
    }
    if i: nat :| LastOfNetwork(rows, i) && rows[i] == row { LastStored(rows, i); }
  }

  /** A number that starts with 0 is national. */
  function Nationalised(number: string, nationalDialCode: string): string
    requires number != ""
  {
    if number[0] == '0' then nationalDialCode + number[1..] else number
  }

  /** `row` has the longest range that begins the number. */
  ghost predicate Longest(rows: set<NumberRow>, number: string, row: NumberRow) {
    && row in rows && row.numberRange != "" && IsPrefix(row.numberRange, number)
    && forall other :: other in rows && IsPrefix(other.numberRange, number) ==> |other.numberRange| <= |row.numberRange|
  }

  /** The longest range is the same whatever order the rows are gone through in. */
  lemma LongestRange(rows: set<NumberRow>, number: string, a: NumberRow, b: NumberRow)
    requires Longest(rows, number, a) && Longest(rows, number, b)
    ensures a.numberRange == b.numberRange
  {}

  function RowsOf(rows: seq<NumberRow>): set<NumberRow> {
    set row | row in rows
  }

  /** Searching the rows kept by network finds what searching all the rows loaded would. */
  ghost predicate FindsTheSame(rows: seq<NumberRow>, number: string) {
    && (forall row :: Longest(ByNetwork(rows).Values, number, row) ==> Longest(RowsOf(rows), number, row))
    && ((exists row :: Longest(RowsOf(rows), number, row)) ==>
          exists row :: Longest(ByNetwork(rows).Values, number, row))
  }

  ghost predicate RangeKept(rows: seq<NumberRow>, range: string) {
    exists kept :: kept in ByNetwork(rows).Values && kept.numberRange == range
  }

  /** The range is the longest loaded one that begins some number searched for. Numbers searched for begin with the
      dial code or do not begin with 0. */
  predicate Decides(rows: seq<NumberRow>, nationalDialCode: string, range: string)
    requires range != ""
  {
    || range[0] != '0' || IsPrefix(nationalDialCode, range)
    || (&& IsPrefix(range, nationalDialCode)
        && forall row :: row in rows && IsPrefix(row.numberRange, nationalDialCode) ==> |row.numberRange| <= |range|)
  }

  /** Every range loaded that decides a lookup is the range of a row that was kept. */
  ghost predicate RangesKept(rows: seq<NumberRow>, nationalDialCode: string) {
    forall row :: row in rows && row.numberRange != "" && Decides(rows, nationalDialCode, row.numberRange) ==>
          RangeKept(rows, row.numberRange)
  }

  lemma KeptAreLoaded(rows: seq<NumberRow>)
    ensures forall row :: row in ByNetwork(rows).Values ==> row in RowsOf(rows)
  {
    forall row | row in ByNetwork(rows).Values ensures row in RowsOf(rows) { KeptRows(rows, row); }
  }

  lemma {:induction false} LongestExists(rows: seq<NumberRow>, number: string, some: NumberRow) returns (row: NumberRow)
    requires some in rows && some.numberRange != "" && IsPrefix(some.numberRange, number)
    ensures Longest(RowsOf(rows), number, row) && |some.numberRange| <= |row.numberRange|
    decreases |rows|
  {
    var first, rest := rows[0], rows[1..];
    if better :| better in rest && better.numberRange != "" && IsPrefix(better.numberRange, number) {
      row := LongestExists(rest, number, better);
      if IsPrefix(first.numberRange, number) && |first.numberRange| > |row.numberRange| { row := first; }
    } else {
      row := first;
    }
    assert forall other :: other in rows ==> other == first || other in rest;
  }

  /** Of two beginnings of a text one begins the other. */
  lemma OneBegins(p: string, q: string, s: string)
    requires IsPrefix(p, s) && IsPrefix(q, s)
    ensures IsPrefix(p, q) || IsPrefix(q, p)
  {
    if |p| <= |q| { assert q[..|p|] == s[..|p|]; } else { assert p[..|q|] == s[..|q|]; }
  }

  /** The range found for a number decides. */
  lemma LongestDecides(rows: seq<NumberRow>, nationalDialCode: string, number: string, row: NumberRow)
    requires number != "" && Longest(RowsOf(rows), Nationalised(number, nationalDialCode), row)
    ensures Decides(rows, nationalDialCode, row.numberRange)
  {
    var range, n := row.numberRange, Nationalised(number, nationalDialCode);
    if range[0] == '0' && !IsPrefix(nationalDialCode, range) {
      assert n[..|nationalDialCode|] == nationalDialCode;
      OneBegins(nationalDialCode, range, n);
      forall other | other in rows && IsPrefix(other.numberRange, nationalDialCode)
        ensures |other.numberRange| <= |range|
      {
        assert n[..|other.numberRange|] == nationalDialCode[..|other.numberRange|];
      }
    }
  }

  /** A number for which a range that decides is the longest loaded. */
  function DecidedBy(nationalDialCode: string, range: string): string
    requires range != ""
  {
    if range[0] != '0' then range
    else if IsPrefix(nationalDialCode, range) then "0" + range[|nationalDialCode|..] else "0"
  }

  lemma DecidesOne(rows: seq<NumberRow>, nationalDialCode: string, row: NumberRow)
    requires row in rows && row.numberRange != "" && Decides(rows, nationalDialCode, row.numberRange)
    ensures DecidedBy(nationalDialCode, row.numberRange) != ""
    ensures Longest(RowsOf(rows), Nationalised(DecidedBy(nationalDialCode, row.numberRange), nationalDialCode), row)
  {
    var range, dial := row.numberRange, nationalDialCode;
    if range[0] != '0' {
    } else if IsPrefix(dial, range) {
      assert ("0" + range[|dial|..])[1..] == range[|dial|..] && dial + range[|dial|..] == range;
    } else {
      assert dial + "0"[1..] == dial;
    }
  }

  /** Lookups are right, whatever number is looked up, exactly when every range loaded that decides a lookup is the
      range of a row that was kept. */
  lemma LookupsRight(rows: seq<NumberRow>, nationalDialCode: string)
    ensures (forall number :: number != "" ==> FindsTheSame(rows, Nationalised(number, nationalDialCode)))
            <==> RangesKept(rows, nationalDialCode)
  {
    hide FindsTheSame, RangeKept, Decides, Nationalised;
    if forall number :: number != "" ==> FindsTheSame(rows, Nationalised(number, nationalDialCode)) {
      forall row | row in rows && row.numberRange != "" && Decides(rows, nationalDialCode, row.numberRange)
        ensures RangeKept(rows, row.numberRange)
      {
        DecidesOne(rows, nationalDialCode, row);
        RangeFound(rows, Nationalised(DecidedBy(nationalDialCode, row.numberRange), nationalDialCode), row);
      }
    }
    if RangesKept(rows, nationalDialCode) {
      forall number | number != "" ensures FindsTheSame(rows, Nationalised(number, nationalDialCode)) {
        KeptFinds(rows, nationalDialCode, number);
      }
    }
  }

  lemma RangeFound(rows: seq<NumberRow>, number: string, row: NumberRow)
    requires Longest(RowsOf(rows), number, row) && FindsTheSame(rows, number)
    ensures RangeKept(rows, row.numberRange)
  {
    hide ByNetwork;
    var kept :| Longest(ByNetwork(rows).Values, number, kept);
    LongestRange(RowsOf(rows), number, row, kept);
  }

  lemma KeptFinds(rows: seq<NumberRow>, nationalDialCode: string, number: string)
    requires RangesKept(rows, nationalDialCode) && number != ""
    ensures FindsTheSame(rows, Nationalised(number, nationalDialCode))
  {
    hide ByNetwork, IsPrefix, Decides, Nationalised;
    var kept, all, n := ByNetwork(rows).Values, RowsOf(rows), Nationalised(number, nationalDialCode);
    KeptAreLoaded(rows);
    if other :| other in rows && other.numberRange != "" && IsPrefix(other.numberRange, n) {
      var best := LongestExists(rows, n, other);
      LongestDecides(rows, nationalDialCode, number, best);
      assert RangeKept(rows, best.numberRange);
      var k :| k in kept && k.numberRange == best.numberRange;
      assert Longest(kept, n, k);
    }
  }

  // ---- two ranges of one network ----

  /** Of the ranges 11 and 27 of one network only 27 is kept, and 11 is not found, whatever the dial code. */
  lemma RangeLost(nationalDialCode: string)
    ensures var rows := [NumberRow("A", "11", 11, ""), NumberRow("A", "27", 11, "")];
            !FindsTheSame(rows, Nationalised("11", nationalDialCode)) && !RangesKept(rows, nationalDialCode)
  {
    var rows := [NumberRow("A", "11", 11, ""), NumberRow("A", "27", 11, "")];
    OneNetwork(rows[0], rows[1]);
    assert Longest(RowsOf(rows), "11", rows[0]) && rows[1].numberRange[0] != "11"[0];
    LookupsRight(rows, nationalDialCode);
  }

  lemma OneNetwork(a: NumberRow, b: NumberRow)
    requires a.plmn == b.plmn
    ensures ByNetwork([a, b]).Values == {b}
  {
    assert [a, b][..1] == [a] && [a][..0] == [];
    var kept := map[b.plmn := b];
    assert ByNetwork([a]) == map[a.plmn := a] && ByNetwork([a, b]) == kept;
    assert kept[b.plmn] in kept.Values;
  }

  /** Of the ranges 0 and 27 of one network only 27 is kept; with the dial code 27 every lookup is right. */
  lemma LostButRight(number: string)
    requires number != ""
    ensures var rows := [NumberRow("A", "0", 11, ""), NumberRow("A", "27", 11, "")];
            !RangeKept(rows, "0") && FindsTheSame(rows, Nationalised(number, "27"))
  {
    var rows := [NumberRow("A", "0", 11, ""), NumberRow("A", "27", 11, "")];
    OneNetwork(rows[0], rows[1]);
    assert RangesKept(rows, "27") by {
      assert rows[1] in ByNetwork(rows).Values && "27"[..1][0] != "0"[0];
    }
    LookupsRight(rows, "27");
  }

  class NumberPlanContainer {
    var numbers: Option<map<string, NumberRow>>
    var nationalDialCode: string

    constructor ()
      ensures numbers == None
    {
      numbers, nationalDialCode := None, "";
    }

    /** A failed load keeps what was loaded before. */
    method ReloadNumbers(loaded: Option<seq<NumberRow>>, nationalDialCode: string)
      modifies this
      ensures loaded.None? ==> numbers == old(numbers) && this.nationalDialCode == old(this.nationalDialCode)
      ensures loaded.Some? ==> numbers == Some(ByNetwork(loaded.value)) && this.nationalDialCode == nationalDialCode
    {
      if loaded.None? { return; }
      var numberList, rows := map[], loaded.value;
      for i := 0 to |rows|
        invariant numberList == ByNetwork(rows[..i])
      {
        numberList := numberList[rows[i].plmn := rows[i]];
        assert rows[..i + 1][..i] == rows[..i];
      }
      assert rows[..|rows|] == rows;
      numbers, this.nationalDialCode := Some(numberList), nationalDialCode;
    }

    method FindNumberPlan(number: string) returns (result: Lookup)
      ensures result == NotLoaded <==> numbers == None
      ensures number == "" ==> !result.Found?
      ensures numbers.Some? && number != "" ==>
                var n, rows := Nationalised(number, nationalDialCode), numbers.value.Values;
                if result.Found? then Longest(rows, n, result.row)
                else forall row :: row in rows && IsPrefix(row.numberRange, n) ==> row.numberRange == ""
    {
      if numbers.None? { return NotLoaded; }
      if number == "" { return UnknownCarrier; }
      var n := Nationalised(number, nationalDialCode);
      var matched, matchLen, left := None, 0, numbers.value;
      while left != map[]
        invariant left.Keys <= numbers.value.Keys && forall k :: k in left ==> left[k] == numbers.value[k]
        invariant matched.None? ==> matchLen == 0
        invariant matched.Some? ==>
          && matched.value in numbers.value.Values && IsPrefix(matched.value.numberRange, n)
          && matchLen == |matched.value.numberRange| > 0
        invariant forall k :: k in numbers.value && k !in left && IsPrefix(numbers.value[k].numberRange, n) ==>
                    |numbers.value[k].numberRange| <= matchLen
        decreases |left|
      {
        var plmn :| plmn in left;
        var row := left[plmn];
        if IsPrefix(row.numberRange, n) {
          if |row.numberRange| > matchLen {
            matchLen, matched := |row.numberRange|, Some(row);
          }
        }
        left := left - {plmn};
      }
      result := if matched.Some? then Found(matched.value) else UnknownCarrier;
    }
  }
}
