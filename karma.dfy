/**
 * Karma totals (services/karma.py) over an abstract spreadsheet adapter.
 *
 * The adapter's state is, for every mapped user, the non-empty rows of
 * that user's amount column, in sheet order; `first_data_row` is the sheet
 * row of the first of them. A write places `[reason, amount]` in the first
 * row after the existing data; a total is the sum of the amount cells.
 */
module Karma {
  import opened Wrappers
  import opened Chat

  /** One ledger row: the reason cell (empty for None) and the amount cell. */
  datatype Row = Row(reason: Option<string>, amount: int)

  /** The user has no columns in the sheet: the adapter's lookup raises. */
  datatype KarmaError = UnmappedUser(user: UserId)

  /** `sum(int(row[0]) for row in rows)`. */
  function Sum(rows: seq<Row>): (total: int)
    ensures (forall i :: 0 <= i < |rows| ==> -1 <= rows[i].amount <= 1) ==> -|rows| <= total <= |rows|
  {
    if rows == [] then 0 else rows[0].amount + Sum(rows[1..])
  }

  /** Appending a row adds its amount to the total. */
  lemma {:induction false} SumAppend(rows: seq<Row>, row: Row)
    ensures Sum(rows + [row]) == Sum(rows) + row.amount
  {
    if rows != [] {
      assert (rows + [row])[1..] == rows[1..] + [row];
      SumAppend(rows[1..], row);
    }
  }

  class KarmaService {
    /** The amount-column rows of every mapped user. */
    var columns: map<UserId, seq<Row>>
    const firstDataRow: int

    constructor(columns: map<UserId, seq<Row>>, firstDataRow: int)
      ensures this.columns == columns && this.firstDataRow == firstDataRow
    {
      this.columns := columns;
      this.firstDataRow := firstDataRow;
    }

    /**
     * `_add_value`: an unmapped user fails and nothing is written; otherwise
     * the row `[reason, amount]` goes to sheet row `first_data_row + len(rows)`,
     * just after the user's existing rows, and no other user's rows change.
     */
    method AddValue(user: UserId, amount: int, reason: Option<string>) returns (r: Result<int, KarmaError>)
      modifies this
      ensures user !in old(columns) ==> r == Failure(UnmappedUser(user)) && columns == old(columns)
      ensures user in old(columns) ==>
        && r == Success(firstDataRow + |old(columns)[user]|)
        && columns == old(columns)[user := old(columns)[user] + [Row(reason, amount)]]
    {
      if user !in columns {
        return Failure(UnmappedUser(user));
      }
      var row := firstDataRow + |columns[user]|;
      columns := columns[user := columns[user] + [Row(reason, amount)]];
      r := Success(row);
    }

    /** `up`: AddValue with amount 1. */
    method Up(user: UserId, reason: Option<string>) returns (r: Result<int, KarmaError>)
      modifies this
      ensures user !in old(columns) ==> r.Failure? && columns == old(columns)
      ensures user in old(columns) ==>
        && r.Success?
        && columns == old(columns)[user := old(columns)[user] + [Row(reason, 1)]]
        && Sum(columns[user]) == Sum(old(columns)[user]) + 1
    {
      r := AddValue(user, 1, reason);
      if r.Success? {
        SumAppend(old(columns)[user], Row(reason, 1));
      }
    }

    /** `down`: AddValue with amount -1. */
    method Down(user: UserId, reason: Option<string>) returns (r: Result<int, KarmaError>)
      modifies this
      ensures user !in old(columns) ==> r.Failure? && columns == old(columns)
      ensures user in old(columns) ==>
        && r.Success?
        && columns == old(columns)[user := old(columns)[user] + [Row(reason, -1)]]
        && Sum(columns[user]) == Sum(old(columns)[user]) - 1
    {
      r := AddValue(user, -1, reason);
      if r.Success? {
        SumAppend(old(columns)[user], Row(reason, -1));
      }
    }

    /** `get_total_value`: the sum of the user's amount cells; fails for an unmapped user. */
    function GetTotalValue(user: UserId): (r: Result<int, KarmaError>)
      reads this
      ensures r.Success? <==> user in columns
      ensures r.Success? ==> r.value == Sum(columns[user])
      ensures r.Failure? ==> r.error == UnmappedUser(user)
    {
      if user !in columns then Failure(UnmappedUser(user)) else Success(Sum(columns[user]))
    }

    /** `get_total_values`: one total per mapped user, each equal to GetTotalValue. */
    method GetTotalValues() returns (total: map<UserId, int>)
      ensures total.Keys == columns.Keys
      ensures forall u :: u in total ==> GetTotalValue(u) == Success(total[u])
    {
      total := map[];
      var todo := columns.Keys;
      while todo != {}
        invariant todo <= columns.Keys
        invariant total.Keys == columns.Keys - todo
        invariant forall u :: u in total ==> total[u] == Sum(columns[u])
        decreases todo
      {
        var user :| user in todo;
        var value := GetTotalValue(user);
        total := total[user := value.value];
        todo := todo - {user};
      }
    }
  }
}
