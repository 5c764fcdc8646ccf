// The fleet file: the rows the writer produces and what the reader makes of a
// header and rows, with its failures.
module Csv {
  import opened Wrappers
  import opened Decimal
  import opened Transformer

  // ---- columns ----

  const HEADER: seq<string> := [
    "transformer_id", "rated_power_mva", "hv_voltage_kv", "lv_voltage_kv",
    "frequency_hz", "phase_count", "vector_group", "impedance_percent",
    "cooling_type", "commissioning_year", "application",
    "no_load_loss_kw", "load_loss_kw", "total_mass_t", "length_m",
    "width_m", "height_m"]

  const WIDTH: nat := 17

  function Name(k: nat): string
    requires k < WIDTH
  {
    HEADER[k]
  }

  const ID: nat := 0
  const RATED_POWER: nat := 1
  const HV: nat := 2
  const LV: nat := 3
  const FREQUENCY: nat := 4
  const PHASES: nat := 5
  const VECTOR_GROUP: nat := 6
  const IMPEDANCE: nat := 7
  const COOLING: nat := 8
  const YEAR: nat := 9
  const APPLICATION: nat := 10
  const NO_LOAD_LOSS: nat := 11
  const LOAD_LOSS: nat := 12
  const MASS: nat := 13
  const LENGTH: nat := 14
  const BREADTH: nat := 15
  const HEIGHT: nat := 16

  // ---- outcomes of reading ----

  datatype LoadError =
    | NoHeader
    | MissingColumn(name: string)
    | BadField(row: nat, name: string)
    | InvalidRow(row: nat, error: TransformerError)

  /** `Panicked` is an index beyond the fields of a record. */
  datatype Loading<+T> = Good(value: T) | Failed(error: LoadError) | Panicked {
    predicate IsFailure()
    {
      !Good?
    }

    function PropagateFailure<U>(): Loading<U>
      requires IsFailure()
    {
      if Failed? then Failed(error) else Panicked
    }

    function Extract(): T
      requires !IsFailure()
    {
      value
    }
  }

  // ---- the reader ----

  /** Where each name stands; a later duplicate replaces an earlier one. */
  function Columns(header: seq<string>): map<string, nat>
  {
    if header == [] then map[]
    else Columns(header[..|header| - 1])[header[|header| - 1] := |header| - 1]
  }

  predicate Complete(col: map<string, nat>)
  {
    forall k :: 0 <= k < WIDTH ==> Name(k) in col
  }

  function Cell(col: map<string, nat>, rec: seq<string>, k: nat): Loading<string>
    requires k < WIDTH && Name(k) in col
  {
    if col[Name(k)] < |rec| then Good(rec[col[Name(k)]]) else Panicked
  }

  function Cells(col: map<string, nat>, rec: seq<string>): (cells: seq<Loading<string>>)
    requires Complete(col)
    ensures |cells| == WIDTH
  {
    seq(WIDTH, k requires 0 <= k < WIDTH => Cell(col, rec, k))
  }

  function AsReal(cells: seq<Loading<string>>, row: nat, k: nat): Loading<real>
    requires |cells| == WIDTH && k < WIDTH
  {
    var text :- cells[k];
    var v := ParseReal(text);
    if v.None? then Failed(BadField(row, Name(k))) else Good(v.value)
  }

  function AsInt(cells: seq<Loading<string>>, row: nat, k: nat): Loading<int>
    requires |cells| == WIDTH && k < WIDTH
  {
    var text :- cells[k];
    var v := ParseInt(text);
    if v.None? then Failed(BadField(row, Name(k))) else Good(v.value)
  }

  /** The cells in the order the reader takes them; the first failure is the outcome. */
  function RecordOf(c: seq<Loading<string>>, row: nat): Loading<Transformer>
    requires |c| == WIDTH
  {
    var id :- c[ID];
    var group :- c[VECTOR_GROUP];
    var cooling :- c[COOLING];
    var application :- c[APPLICATION];
    var power :- AsReal(c, row, RATED_POWER);
    var hv :- AsReal(c, row, HV);
    var lv :- AsReal(c, row, LV);
    var frequency :- AsInt(c, row, FREQUENCY);
    var phases :- AsInt(c, row, PHASES);
    var impedance :- AsReal(c, row, IMPEDANCE);
    var year :- AsInt(c, row, YEAR);
    var noLoad :- AsReal(c, row, NO_LOAD_LOSS);
    var load :- AsReal(c, row, LOAD_LOSS);
    var mass :- AsReal(c, row, MASS);
    var length :- AsReal(c, row, LENGTH);
    var width :- AsReal(c, row, BREADTH);
    var height :- AsReal(c, row, HEIGHT);
    Good(Transformer(id, power, hv, lv, frequency, phases, group, impedance, cooling, year, application,
                     noLoad, load, mass, length, width, height))
  }

  function ReadCells(c: seq<Loading<string>>, row: nat): Loading<Transformer>
    requires |c| == WIDTH
  {
    var t :- RecordOf(c, row);
    Checked(t, row)
  }

  function Checked(t: Transformer, row: nat): Loading<Transformer>
  {
    var error := Validate(t);
    if error.Some? then Failed(InvalidRow(row, error.value)) else Good(t)
  }

  /** Data rows are numbered from two. */
  function ReadRows(col: map<string, nat>, rows: seq<seq<string>>): Loading<seq<Transformer>>
    requires Complete(col)
  {
    if rows == [] then Good([])
    else
      var n := |rows| - 1;
      var fleet :- ReadRows(col, rows[..n]);
      var t :- ReadCells(Cells(col, rows[n]), n + 2);
      Good(fleet + [t])
  }

  function FirstMissing(col: map<string, nat>, k: nat): (m: Option<string>)
    requires k <= WIDTH
    ensures m.None? <==> forall j :: k <= j < WIDTH ==> Name(j) in col
    decreases WIDTH - k
  {
    if k == WIDTH then None
    else if Name(k) !in col then Some(Name(k))
    else FirstMissing(col, k + 1)
  }

  function Load(table: seq<seq<string>>): Loading<seq<Transformer>>
  {
    if table == [] then Failed(NoHeader)
    else
      var col := Columns(table[0]);
      var missing := FirstMissing(col, 0);
      if missing.Some? then Failed(MissingColumn(missing.value)) else ReadRows(col, table[1..])
  }

  method LoadTransformerCSV(table: seq<seq<string>>) returns (result: Loading<seq<Transformer>>)
    ensures result == Load(table)
  {
    hide ReadCells, Cells, Name;
    if |table| == 0 {
      return Failed(NoHeader);
    }
    var header := table[0];
    var col: map<string, nat> := map[];
    for i := 0 to |header|
      invariant col == Columns(header[..i])
    {
      assert header[..i + 1][..i] == header[..i];
      col := col[header[i] := i];
    }
    assert header[..|header|] == header;
    for k := 0 to WIDTH
      invariant FirstMissing(col, 0) == FirstMissing(col, k)
    {
      if Name(k) !in col {
        return Failed(MissingColumn(Name(k)));
      }
    }
    var rows := table[1..];
    var fleet: seq<Transformer> := [];
    for i := 0 to |rows|
      invariant ReadRows(col, rows[..i]) == Good(fleet)
    {
      assert rows[..i + 1][..i] == rows[..i];
      var t := ReadCells(Cells(col, rows[i]), i + 2);
      if t.IsFailure() {
        ReadRowsStops(col, rows, i);
        return t.PropagateFailure();
      }
      fleet := fleet + [t.value];
    }
    assert rows[..|rows|] == rows;
    result := Good(fleet);
  }

  /** Nothing after the first row that fails matters. */
  lemma {:induction false} ReadRowsStops(col: map<string, nat>, rows: seq<seq<string>>, i: nat)
    requires Complete(col) && i < |rows| && ReadRows(col, rows[..i]).Good?
    requires ReadCells(Cells(col, rows[i]), i + 2).IsFailure()
    ensures ReadRows(col, rows) == ReadCells(Cells(col, rows[i]), i + 2).PropagateFailure()
    decreases |rows|
  {
    hide ReadCells, Cells, Name;
    var n := |rows| - 1;
    if i < n {
      assert rows[..n][..i] == rows[..i];
      ReadRowsStops(col, rows[..n], i);
    }
  }

  // ---- the writer ----

  function RowFor(t: Transformer): (row: seq<string>)
    ensures |row| == WIDTH
  {
    [t.id, PrintFixed(t.ratedPower, 1), PrintFixed(t.hv, 1), PrintFixed(t.lv, 1),
     PrintInt(t.frequency), PrintInt(t.phases), t.vectorGroup, PrintFixed(t.impedance, 1),
     t.cooling, PrintInt(t.year), t.application,
     PrintFixed(t.noLoadLoss, 1), PrintFixed(t.loadLoss, 1), PrintFixed(t.mass, 1),
     PrintFixed(t.length, 2), PrintFixed(t.width, 2), PrintFixed(t.height, 2)]
  }

  function Rendered(fleet: seq<Transformer>): seq<seq<string>>
  {
    [HEADER] + seq(|fleet|, i requires 0 <= i < |fleet| => RowFor(fleet[i]))
  }

  method WriteCSV(fleet: seq<Transformer>) returns (table: seq<seq<string>>)
    ensures table == Rendered(fleet)
  {
    hide RowFor, HEADER;
    table := [HEADER];
    for i := 0 to |fleet|
      invariant table == Rendered(fleet)[..i + 1]
    {
      table := table + [RowFor(fleet[i])];
    }
  }
}
