/**
 The report pivot of `write_file`: `pd.DataFrame(data=CODE_USAGE)` followed by `fillna(0)`.
 The outer keys of the accumulator become the columns, the union of all inner keys becomes
 the rows, and a cell holds the stored count or 0 where none is stored. Row and column order
 are not modelled: the table is keyed by day and by code.
 */
module Report {
  import opened Messages
  import opened Usage

  datatype Table = Table(columns: set<Code>, rows: map<Date, map<Code, nat>>)

  /** Every day some code has a stored count for. */
  function Days(u: Usage): (days: set<Date>)
    ensures forall d :: d in days <==> exists c :: c in u && d in u[c]
  {
    set c, d | c in u && d in u[c] :: d
  }

  /** Whether `t` has a cell for every (row, column) pair. */
  predicate Complete(t: Table) {
    forall d :: d in t.rows ==> t.rows[d].Keys == t.columns
  }

  /** The table written to the spreadsheet: one column per code, one row per recorded day, zero-filled. */
  function Pivot(u: Usage): (t: Table)
    ensures t.columns == u.Keys
    ensures forall d :: d in t.rows <==> exists c :: c in u && d in u[c]
    ensures Complete(t)
    ensures forall d, c :: d in t.rows && c in u && d in u[c] ==> t.rows[d][c] == u[c][d]
    ensures forall d, c :: d in t.rows && c in u && d !in u[c] ==> t.rows[d][c] == 0
  {
    Table(u.Keys, map d | d in Days(u) :: map c | c in u :: Get(u[c], d))
  }

  /** With positive counts, a day is a row exactly when some code has a nonzero cell on it. */
  lemma PivotCells(u: Usage)
    requires Positive(u)
    ensures forall d :: d in Pivot(u).rows <==> exists c :: c in u && Get(u[c], d) > 0
    ensures forall d, c :: d in Pivot(u).rows && c in u ==> Pivot(u).rows[d][c] == Get(u[c], d)
  {
  }

  /**
   The report at the end of a run over `msgs`: the columns are the registry codes, a day is a
   row exactly when some registry code was used on it, and each cell is the number of usages
   of its code on its day.
   */
  lemma ReportCounts(registry: set<Code>, msgs: seq<Message>)
    ensures Pivot(Scan(Init(registry), msgs)).columns == registry
    ensures forall d :: d in Pivot(Scan(Init(registry), msgs)).rows
                    <==> exists c :: c in registry && Count(msgs, c, d) > 0
    ensures forall d, c :: d in Pivot(Scan(Init(registry), msgs)).rows && c in registry
                      ==> Pivot(Scan(Init(registry), msgs)).rows[d][c] == Count(msgs, c, d)
  {
    var u := Scan(Init(registry), msgs);
    ScanCounts(Init(registry), msgs);
    assert forall c, d :: c in u ==> Get(u[c], d) == Count(msgs, c, d);
    PivotCells(u);
  }
}
