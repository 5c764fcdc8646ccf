// The reader undoes the writer, exactly on the fleets it can, and does not
// depend on the order of the columns.
module CsvTheorems {
  import opened Wrappers
  import opened Text
  import opened Decimal
  import opened Transformer
  import opened Csv

  // ---- header names ----

  ghost predicate Distinct(header: seq<string>)
  {
    forall i, j :: 0 <= i < j < |header| ==> header[i] != header[j]
  }

  /** A length and a first letter tell the header's names apart. */
  function Mark(s: string): int
  {
    if s == "" then 0 else 256 * |s| + s[0] as int
  }

  lemma HeaderIsDistinct()
    ensures Distinct(HEADER)
  {
    forall i, j | 0 <= i < j < WIDTH ensures HEADER[i] != HEADER[j] {
      MarksDiffer(i, j);
    }
  }

  lemma MarksDiffer(i: nat, j: nat)
    requires i < j < WIDTH
    ensures Mark(HEADER[i]) != Mark(HEADER[j])
  {
  }

  // ---- where the names stand ----

  /** The entry of a name is its last place in the header. */
  lemma {:induction false} ColumnsIsLast(header: seq<string>, name: string)
    ensures name in Columns(header) <==> name in header
    ensures name in header ==>
              var c := Columns(header)[name];
              c < |header| && header[c] == name && forall i :: c < i < |header| ==> header[i] != name
  {
    if header != [] {
      var front := header[..|header| - 1];
      ColumnsIsLast(front, name);
      assert header == front + [header[|header| - 1]];
    }
  }

  lemma ColumnsOfDistinct(header: seq<string>, k: nat)
    requires Distinct(header) && k < |header|
    ensures header[k] in Columns(header) && Columns(header)[header[k]] == k
  {
    ColumnsIsLast(header, header[k]);
  }

  // ---- one row ----

  /** The writer shows the record as it is: tenths, hundredths for the dimensions, a machine-sized year. */
  predicate Printable(t: Transformer)
  {
    && HasDecimals(t.ratedPower, 1) && HasDecimals(t.hv, 1) && HasDecimals(t.lv, 1) && HasDecimals(t.impedance, 1)
    && HasDecimals(t.noLoadLoss, 1) && HasDecimals(t.loadLoss, 1) && HasDecimals(t.mass, 1)
    && HasDecimals(t.length, 2) && HasDecimals(t.width, 2) && HasDecimals(t.height, 2)
    && InMachineInt(t.frequency) && InMachineInt(t.phases) && InMachineInt(t.year)
  }

  /** What reading the row back shows, integers aside. */
  function Shown(t: Transformer): Transformer
  {
    t.(ratedPower := OnGrid(t.ratedPower, 1), hv := OnGrid(t.hv, 1), lv := OnGrid(t.lv, 1),
       impedance := OnGrid(t.impedance, 1), noLoadLoss := OnGrid(t.noLoadLoss, 1), loadLoss := OnGrid(t.loadLoss, 1),
       mass := OnGrid(t.mass, 1), length := OnGrid(t.length, 2), width := OnGrid(t.width, 2), height := OnGrid(t.height, 2))
  }

  lemma OnGridExactly(x: real, p: nat)
    ensures OnGrid(x, p) == x <==> HasDecimals(x, p)
  {
    hide *;
    ShownIsOnGrid(x, p);
    if HasDecimals(x, p) {
      GridIsShown(x, p);
    }
  }

  lemma ShownExactly(t: Transformer)
    ensures Shown(t) == t && InMachineInt(t.frequency) && InMachineInt(t.phases) && InMachineInt(t.year) <==> Printable(t)
  {
    hide OnGrid, HasDecimals;
    OnGridExactly(t.ratedPower, 1);
    OnGridExactly(t.hv, 1);
    OnGridExactly(t.lv, 1);
    OnGridExactly(t.impedance, 1);
    OnGridExactly(t.noLoadLoss, 1);
    OnGridExactly(t.loadLoss, 1);
    OnGridExactly(t.mass, 1);
    OnGridExactly(t.length, 2);
    OnGridExactly(t.width, 2);
    OnGridExactly(t.height, 2);
  }

  /** Cells that hold exactly a row the writer wrote. */
  ghost predicate Holds(c: seq<Loading<string>>, t: Transformer)
  {
    |c| == WIDTH && forall k :: 0 <= k < WIDTH ==> c[k] == Good(RowFor(t)[k])
  }

  lemma RealReadsBack(c: seq<Loading<string>>, row: nat, k: nat, x: real, p: nat)
    requires |c| == WIDTH && k < WIDTH && c[k] == Good(PrintFixed(x, p))
    ensures AsReal(c, row, k) == Good(OnGrid(x, p))
  {
    hide PrintFixed, OnGrid, ParseReal;
    FixedReadsBack(x, p);
  }

  lemma IntReadsBack(c: seq<Loading<string>>, row: nat, k: nat, n: int)
    requires |c| == WIDTH && k < WIDTH && c[k] == Good(PrintInt(n))
    ensures AsInt(c, row, k) == if InMachineInt(n) then Good(n) else Failed(BadField(row, Name(k)))
  {
    hide PrintInt, ParseInt;
    IntRoundTrip(n);
  }

  lemma NumbersReadBack(c: seq<Loading<string>>, t: Transformer, row: nat)
    requires Holds(c, t)
    ensures AsReal(c, row, RATED_POWER) == Good(OnGrid(t.ratedPower, 1)) && AsReal(c, row, HV) == Good(OnGrid(t.hv, 1))
    ensures AsReal(c, row, LV) == Good(OnGrid(t.lv, 1)) && AsReal(c, row, IMPEDANCE) == Good(OnGrid(t.impedance, 1))
    ensures AsReal(c, row, NO_LOAD_LOSS) == Good(OnGrid(t.noLoadLoss, 1))
    ensures AsReal(c, row, LOAD_LOSS) == Good(OnGrid(t.loadLoss, 1)) && AsReal(c, row, MASS) == Good(OnGrid(t.mass, 1))
    ensures AsReal(c, row, LENGTH) == Good(OnGrid(t.length, 2)) && AsReal(c, row, BREADTH) == Good(OnGrid(t.width, 2))
    ensures AsReal(c, row, HEIGHT) == Good(OnGrid(t.height, 2))
  {
    hide PrintFixed, PrintInt, AsReal, OnGrid, Name;
    RealReadsBack(c, row, RATED_POWER, t.ratedPower, 1);
    RealReadsBack(c, row, HV, t.hv, 1);
    RealReadsBack(c, row, LV, t.lv, 1);
    RealReadsBack(c, row, IMPEDANCE, t.impedance, 1);
    RealReadsBack(c, row, NO_LOAD_LOSS, t.noLoadLoss, 1);
    RealReadsBack(c, row, LOAD_LOSS, t.loadLoss, 1);
    RealReadsBack(c, row, MASS, t.mass, 1);
    RealReadsBack(c, row, LENGTH, t.length, 2);
    RealReadsBack(c, row, BREADTH, t.width, 2);
    RealReadsBack(c, row, HEIGHT, t.height, 2);
  }

  /** A row the writer wrote reads as the record shown, if its integers fit. */
  lemma RowReadsBack(c: seq<Loading<string>>, t: Transformer, row: nat)
    requires Holds(c, t)
    ensures InMachineInt(t.frequency) && InMachineInt(t.phases) && InMachineInt(t.year) ==>
              ReadCells(c, row) == Checked(Shown(t), row)
    ensures !(InMachineInt(t.frequency) && InMachineInt(t.phases) && InMachineInt(t.year)) ==> !ReadCells(c, row).Good?
  {
    hide PrintFixed, PrintInt, AsReal, AsInt, OnGrid, Checked, InMachineInt;
    NumbersReadBack(c, t, row);
    IntReadsBack(c, row, FREQUENCY, t.frequency);
    IntReadsBack(c, row, PHASES, t.phases);
    IntReadsBack(c, row, YEAR, t.year);
  }

  /** A row is read back as the record it was written for exactly when the record is valid and printable. */
  lemma RowRoundTripExactly(c: seq<Loading<string>>, t: Transformer, row: nat)
    requires Holds(c, t)
    ensures ReadCells(c, row) == Good(t) <==> Valid(t) && Printable(t)
  {
    hide ReadCells, Shown, Validate, Printable, InMachineInt, Holds;
    RowReadsBack(c, t, row);
    ShownExactly(t);
  }

  // ---- whole files ----

  lemma {:induction false} ReadRowsExactly(col: map<string, nat>, rows: seq<seq<string>>, fleet: seq<Transformer>)
    requires Complete(col)
    ensures ReadRows(col, rows) == Good(fleet) <==>
            |fleet| == |rows| && forall i :: 0 <= i < |rows| ==> ReadCells(Cells(col, rows[i]), i + 2) == Good(fleet[i])
  {
    hide ReadCells, Cells, Complete;
    if rows != [] {
      var n := |rows| - 1;
      if |fleet| == |rows| {
        ReadRowsExactly(col, rows[..n], fleet[..n]);
        assert fleet == fleet[..n] + [fleet[n]];
      }
      if ReadRows(col, rows) == Good(fleet) {
        var front := ReadRows(col, rows[..n]).value;
        var t := ReadCells(Cells(col, rows[n]), n + 2).value;
        ReadRowsExactly(col, rows[..n], front);
        assert fleet == front + [t];
      }
    }
  }

  lemma HeaderIsComplete()
    ensures Complete(Columns(HEADER))
    ensures forall k :: 0 <= k < WIDTH ==> Columns(HEADER)[Name(k)] == k
  {
    hide Columns;
    HeaderIsDistinct();
    forall k | 0 <= k < WIDTH ensures Name(k) in Columns(HEADER) && Columns(HEADER)[Name(k)] == k {
      ColumnsOfDistinct(HEADER, k);
    }
  }

  lemma WrittenCells(t: Transformer)
    ensures Complete(Columns(HEADER)) && Holds(Cells(Columns(HEADER), RowFor(t)), t)
  {
    hide RowFor, Columns, Name;
    HeaderIsComplete();
  }

  /**
   * The reader undoes the writer, order included, exactly on the fleets whose
   * records are all valid and printable.
   */
  lemma RoundTripExactly(fleet: seq<Transformer>)
    ensures Load(Rendered(fleet)) == Good(fleet) <==> forall i :: 0 <= i < |fleet| ==> Valid(fleet[i]) && Printable(fleet[i])
  {
    hide ReadCells, Cells, RowFor, Columns, Valid, Printable, Holds, Name;
    var col, rows := Columns(HEADER), seq(|fleet|, i requires 0 <= i < |fleet| => RowFor(fleet[i]));
    HeaderIsComplete();
    assert Rendered(fleet)[1..] == rows;
    assert Load(Rendered(fleet)) == ReadRows(col, rows);
    ReadRowsExactly(col, rows, fleet);
    forall i | 0 <= i < |fleet|
      ensures ReadCells(Cells(col, rows[i]), i + 2) == Good(fleet[i]) <==> Valid(fleet[i]) && Printable(fleet[i])
    {
      WrittenCells(fleet[i]);
      RowRoundTripExactly(Cells(col, rows[i]), fleet[i], i + 2);
    }
  }

  // ---- the order of the columns ----

  /** `q` undoes `p`. */
  ghost predicate Inverse(p: seq<nat>, q: seq<nat>)
  {
    && |p| == |q|
    && (forall i :: 0 <= i < |p| ==> p[i] < |p| && q[i] < |p|)
    && (forall i :: 0 <= i < |p| ==> q[p[i]] == i && p[q[i]] == i)
  }

  /** The row with its fields rearranged: place `i` takes what stood at `p[i]`. */
  function Permuted(row: seq<string>, p: seq<nat>): seq<string>
    requires |row| == |p| && forall i :: 0 <= i < |p| ==> p[i] < |p|
  {
    seq(|p|, i requires 0 <= i < |p| => row[p[i]])
  }

  ghost predicate Rectangular(table: seq<seq<string>>, width: nat)
  {
    forall i :: 0 <= i < |table| ==> |table[i]| == width
  }

  function AllPermuted(table: seq<seq<string>>, p: seq<nat>): seq<seq<string>>
    requires Rectangular(table, |p|) && forall i :: 0 <= i < |p| ==> p[i] < |p|
  {
    seq(|table|, i requires 0 <= i < |table| => Permuted(table[i], p))
  }

  lemma PermutedDistinct(header: seq<string>, p: seq<nat>, q: seq<nat>)
    requires Distinct(header) && |header| == |p| && Inverse(p, q)
    ensures Distinct(Permuted(header, p))
  {
    var h := Permuted(header, p);
    forall i, j | 0 <= i < j < |h| ensures h[i] != h[j] {
      assert p[i] != p[j] by {
        assert q[p[i]] == i && q[p[j]] == j;
      }
    }
  }

  lemma PermutedColumns(header: seq<string>, p: seq<nat>, q: seq<nat>, name: string)
    requires Distinct(header) && |header| == |p| && Inverse(p, q)
    ensures Distinct(Permuted(header, p))
    ensures name in Columns(Permuted(header, p)) <==> name in Columns(header)
    ensures name in Columns(header) ==>
              Columns(header)[name] < |q| && Columns(Permuted(header, p))[name] == q[Columns(header)[name]]
  {
    hide Columns;
    var h := Permuted(header, p);
    PermutedDistinct(header, p, q);
    ColumnsIsLast(header, name);
    ColumnsIsLast(h, name);
    if name in header {
      var c := Columns(header)[name];
      assert h[q[c]] == header[c];
      ColumnsOfDistinct(h, q[c]);
    }
    if name in h {
      var d := Columns(h)[name];
      assert header[p[d]] == name;
    }
  }

  lemma SameCells(header: seq<string>, rec: seq<string>, p: seq<nat>, q: seq<nat>)
    requires Distinct(header) && |header| == |rec| == |p| && Inverse(p, q) && Complete(Columns(header))
    ensures Complete(Columns(Permuted(header, p)))
    ensures Cells(Columns(Permuted(header, p)), Permuted(rec, p)) == Cells(Columns(header), rec)
  {
    hide Name, Columns;
    var col, moved := Columns(header), Columns(Permuted(header, p));
    forall k | 0 <= k < WIDTH
      ensures Name(k) in moved && Cell(moved, Permuted(rec, p), k) == Cell(col, rec, k)
    {
      PermutedColumns(header, p, q, Name(k));
      ColumnsIsLast(header, Name(k));
    }
  }

  lemma {:induction false} SameRows(header: seq<string>, rows: seq<seq<string>>, p: seq<nat>, q: seq<nat>)
    requires Distinct(header) && |header| == |p| && Inverse(p, q) && Rectangular(rows, |p|) && Complete(Columns(header))
    ensures Complete(Columns(Permuted(header, p)))
    ensures ReadRows(Columns(Permuted(header, p)), AllPermuted(rows, p)) == ReadRows(Columns(header), rows)
  {
    hide Name, Columns, Cells, ReadCells, Permuted, Complete, Distinct;
    if rows == [] {
      PermutedComplete(header, p, q);
    } else {
      var n := |rows| - 1;
      SameRows(header, rows[..n], p, q);
      SameCells(header, rows[n], p, q);
      assert AllPermuted(rows, p)[..n] == AllPermuted(rows[..n], p);
    }
  }

  lemma PermutedComplete(header: seq<string>, p: seq<nat>, q: seq<nat>)
    requires Distinct(header) && |header| == |p| && Inverse(p, q)
    ensures Complete(Columns(Permuted(header, p))) <==> Complete(Columns(header))
    ensures FirstMissing(Columns(Permuted(header, p)), 0) == FirstMissing(Columns(header), 0)
  {
    hide Name, Columns, Permuted;
    forall k | 0 <= k < WIDTH ensures Name(k) in Columns(Permuted(header, p)) <==> Name(k) in Columns(header) {
      PermutedColumns(header, p, q, Name(k));
    }
    SameMissing(Columns(Permuted(header, p)), Columns(header), 0);
  }

  lemma {:induction false} SameMissing(a: map<string, nat>, b: map<string, nat>, k: nat)
    requires k <= WIDTH && forall j :: 0 <= j < WIDTH ==> (Name(j) in a <==> Name(j) in b)
    ensures FirstMissing(a, k) == FirstMissing(b, k)
    decreases WIDTH - k
  {
    if k < WIDTH && Name(k) in a {
      SameMissing(a, b, k + 1);
    }
  }

  /** Rearranging the columns of the header and of every row alike changes neither the fleet nor the failure. */
  lemma ColumnOrderIsFree(table: seq<seq<string>>, p: seq<nat>, q: seq<nat>)
    requires table != [] && Distinct(table[0]) && Rectangular(table, |p|) && Inverse(p, q)
    ensures Load(AllPermuted(table, p)) == Load(table)
  {
    hide Name, Columns, Cells, ReadCells, Permuted, ReadRows, FirstMissing, Distinct;
    PermutedComplete(table[0], p, q);
    assert AllPermuted(table, p)[1..] == AllPermuted(table[1..], p);
    if Complete(Columns(table[0])) {
      SameRows(table[0], table[1..], p, q);
    }
  }

  // ---- names and fields ----

  /** The text under a name of the header. */
  function Under(header: seq<string>, rec: seq<string>, name: string): Loading<string>
    requires name in Columns(header)
  {
    if Columns(header)[name] < |rec| then Good(rec[Columns(header)[name]]) else Panicked
  }

  predicate RealUnder(header: seq<string>, rec: seq<string>, name: string, x: real)
  {
    name in Columns(header) && Under(header, rec, name).Good? && ParseReal(Under(header, rec, name).value) == Some(x)
  }

  predicate IntUnder(header: seq<string>, rec: seq<string>, name: string, n: int)
  {
    name in Columns(header) && Under(header, rec, name).Good? && ParseInt(Under(header, rec, name).value) == Some(n)
  }

  predicate TextUnder(header: seq<string>, rec: seq<string>, name: string, s: string)
  {
    name in Columns(header) && Under(header, rec, name) == Good(s)
  }

  /** Each field of the record stands under its own name. */
  predicate StandsUnder(header: seq<string>, rec: seq<string>, t: Transformer)
  {
    && TextUnder(header, rec, "transformer_id", t.id)
    && RealUnder(header, rec, "rated_power_mva", t.ratedPower)
    && RealUnder(header, rec, "hv_voltage_kv", t.hv) && RealUnder(header, rec, "lv_voltage_kv", t.lv)
    && IntUnder(header, rec, "frequency_hz", t.frequency) && IntUnder(header, rec, "phase_count", t.phases)
    && TextUnder(header, rec, "vector_group", t.vectorGroup)
    && RealUnder(header, rec, "impedance_percent", t.impedance)
    && TextUnder(header, rec, "cooling_type", t.cooling)
    && IntUnder(header, rec, "commissioning_year", t.year)
    && TextUnder(header, rec, "application", t.application)
    && RealUnder(header, rec, "no_load_loss_kw", t.noLoadLoss) && RealUnder(header, rec, "load_loss_kw", t.loadLoss)
    && RealUnder(header, rec, "total_mass_t", t.mass) && RealUnder(header, rec, "length_m", t.length)
    && RealUnder(header, rec, "width_m", t.width) && RealUnder(header, rec, "height_m", t.height)
  }

  lemma CellUnder(header: seq<string>, rec: seq<string>, k: nat)
    requires Complete(Columns(header)) && k < WIDTH
    ensures Cells(Columns(header), rec)[k] == Under(header, rec, Name(k))
  {
  }

  lemma RealCell(header: seq<string>, rec: seq<string>, row: nat, k: nat)
    requires Complete(Columns(header)) && k < WIDTH
    ensures AsReal(Cells(Columns(header), rec), row, k).Good? ==>
              RealUnder(header, rec, Name(k), AsReal(Cells(Columns(header), rec), row, k).value)
  {
    hide Name, ParseReal, Columns;
    CellUnder(header, rec, k);
  }

  lemma IntCell(header: seq<string>, rec: seq<string>, row: nat, k: nat)
    requires Complete(Columns(header)) && k < WIDTH
    ensures AsInt(Cells(Columns(header), rec), row, k).Good? ==>
              IntUnder(header, rec, Name(k), AsInt(Cells(Columns(header), rec), row, k).value)
  {
    hide Name, ParseInt, Columns;
    CellUnder(header, rec, k);
  }

  lemma TextCell(header: seq<string>, rec: seq<string>, k: nat)
    requires Complete(Columns(header)) && k < WIDTH
    ensures Cells(Columns(header), rec)[k].Good? ==> TextUnder(header, rec, Name(k), Cells(Columns(header), rec)[k].value)
  {
    hide Name, Columns;
    CellUnder(header, rec, k);
  }

  /** The fields of a row that can be read stand under their names. */
  lemma RowStandsUnder(header: seq<string>, rec: seq<string>, row: nat)
    requires Complete(Columns(header)) && RecordOf(Cells(Columns(header), rec), row).Good?
    ensures StandsUnder(header, rec, RecordOf(Cells(Columns(header), rec), row).value)
  {
    hide AsReal, AsInt, Cells, Columns, RealUnder, IntUnder, TextUnder;
    TextCell(header, rec, ID);
    TextCell(header, rec, VECTOR_GROUP);
    TextCell(header, rec, COOLING);
    TextCell(header, rec, APPLICATION);
    RealCell(header, rec, row, RATED_POWER);
    RealCell(header, rec, row, HV);
    RealCell(header, rec, row, LV);
    IntCell(header, rec, row, FREQUENCY);
    IntCell(header, rec, row, PHASES);
    RealCell(header, rec, row, IMPEDANCE);
    IntCell(header, rec, row, YEAR);
    RealCell(header, rec, row, NO_LOAD_LOSS);
    RealCell(header, rec, row, LOAD_LOSS);
    RealCell(header, rec, row, MASS);
    RealCell(header, rec, row, LENGTH);
    RealCell(header, rec, row, BREADTH);
    RealCell(header, rec, row, HEIGHT);
  }

  lemma {:induction false} RowsStandUnder(header: seq<string>, rows: seq<seq<string>>)
    requires Complete(Columns(header)) && ReadRows(Columns(header), rows).Good?
    ensures var fleet := ReadRows(Columns(header), rows).value;
            |fleet| == |rows| && forall i :: 0 <= i < |rows| ==> StandsUnder(header, rows[i], fleet[i]) && Valid(fleet[i])
  {
    hide RecordOf, Cells, Columns, StandsUnder, Complete, Validate;
    if rows != [] {
      var n := |rows| - 1;
      RowsStandUnder(header, rows[..n]);
      RowStandsUnder(header, rows[n], n + 2);
    }
  }

  /** Whatever the header's order and extra columns: a file that loads gives one valid record per row, field by name. */
  lemma LoadedByName(table: seq<seq<string>>)
    requires Load(table).Good?
    ensures table != [] && |Load(table).value| == |table| - 1
    ensures forall i :: 0 <= i < |table| - 1 ==>
              StandsUnder(table[0], table[i + 1], Load(table).value[i]) && Valid(Load(table).value[i])
  {
    hide ReadRows, Columns, Name, StandsUnder, Valid;
    RowsStandUnder(table[0], table[1..]);
  }

  /** The written file of printable, valid records: each field stands under its own name. */
  lemma WrittenByName(fleet: seq<Transformer>, i: nat)
    requires (forall j :: 0 <= j < |fleet| ==> Valid(fleet[j]) && Printable(fleet[j])) && i < |fleet|
    ensures StandsUnder(HEADER, RowFor(fleet[i]), fleet[i])
  {
    hide Load, Printable, Valid, RowFor, StandsUnder;
    RoundTripExactly(fleet);
    LoadedByName(Rendered(fleet));
  }

  predicate IsWhole(name: string)
  {
    name == "frequency_hz" || name == "phase_count" || name == "commissioning_year"
  }

  /** What a failure says of the row it names. */
  ghost predicate Justified(header: seq<string>, rec: seq<string>, row: nat, e: LoadError)
    requires Complete(Columns(header))
  {
    match e
    case BadField(at, name) =>
      && at == row && name in HEADER && name in Columns(header) && Under(header, rec, name).Good?
      && if IsWhole(name) then ParseInt(Under(header, rec, name).value).None?
         else ParseReal(Under(header, rec, name).value).None?
    case InvalidRow(at, error) => at == row && exists t :: StandsUnder(header, rec, t) && Validate(t) == Some(error)
    case _ => false
  }

  lemma RealFails(header: seq<string>, rec: seq<string>, row: nat, k: nat)
    requires Complete(Columns(header)) && k < WIDTH && !IsWhole(Name(k))
    ensures var x := AsReal(Cells(Columns(header), rec), row, k); x.Failed? ==> Justified(header, rec, row, x.error)
  {
    hide ParseReal, Columns;
    CellUnder(header, rec, k);
  }

  lemma IntFails(header: seq<string>, rec: seq<string>, row: nat, k: nat)
    requires Complete(Columns(header)) && k < WIDTH && IsWhole(Name(k))
    ensures var x := AsInt(Cells(Columns(header), rec), row, k); x.Failed? ==> Justified(header, rec, row, x.error)
  {
    hide ParseInt, Columns;
    CellUnder(header, rec, k);
  }

  lemma RecordFails(header: seq<string>, rec: seq<string>, row: nat)
    requires Complete(Columns(header))
    ensures var x := RecordOf(Cells(Columns(header), rec), row); x.Failed? ==> Justified(header, rec, row, x.error)
  {
    hide AsReal, AsInt, Cells, Columns, Justified;
    forall k | 0 <= k < WIDTH ensures !Cells(Columns(header), rec)[k].Failed? {
      CellUnder(header, rec, k);
    }
    RealFails(header, rec, row, RATED_POWER);
    RealFails(header, rec, row, HV);
    RealFails(header, rec, row, LV);
    IntFails(header, rec, row, FREQUENCY);
    IntFails(header, rec, row, PHASES);
    RealFails(header, rec, row, IMPEDANCE);
    IntFails(header, rec, row, YEAR);
    RealFails(header, rec, row, NO_LOAD_LOSS);
    RealFails(header, rec, row, LOAD_LOSS);
    RealFails(header, rec, row, MASS);
    RealFails(header, rec, row, LENGTH);
    RealFails(header, rec, row, BREADTH);
    RealFails(header, rec, row, HEIGHT);
  }

  lemma RowFailureIsJustified(header: seq<string>, rec: seq<string>, row: nat)
    requires Complete(Columns(header)) && ReadCells(Cells(Columns(header), rec), row).Failed?
    ensures Justified(header, rec, row, ReadCells(Cells(Columns(header), rec), row).error)
  {
    hide Cells, Columns, RecordOf, StandsUnder, Validate;
    RecordFails(header, rec, row);
    if RecordOf(Cells(Columns(header), rec), row).Good? {
      RowStandsUnder(header, rec, row);
    }
  }

  lemma {:induction false} RowsFailureIsJustified(header: seq<string>, rows: seq<seq<string>>) returns (i: nat)
    requires Complete(Columns(header)) && ReadRows(Columns(header), rows).Failed?
    ensures i < |rows| && Justified(header, rows[i], i + 2, ReadRows(Columns(header), rows).error)
    ensures ReadRows(Columns(header), rows[..i]).Good?
  {
    hide ReadCells, Cells, Columns, Justified, Complete;
    var n := |rows| - 1;
    if ReadRows(Columns(header), rows[..n]).Failed? {
      i := RowsFailureIsJustified(header, rows[..n]);
      assert rows[..n][..i] == rows[..i];
    } else {
      i := n;
      RowFailureIsJustified(header, rows[n], n + 2);
    }
  }

  /**
   * What a failed load says is so: there is no header, the header lacks the named
   * column, or the row it names, the header being row 1 and all rows before it
   * good, holds under that name what is no number, or a record refused for that reason.
   */
  lemma LoadFailureIsJustified(table: seq<seq<string>>) returns (i: nat)
    requires Load(table).Failed?
    ensures match Load(table).error
            case NoHeader => table == []
            case MissingColumn(name) =>
              && table != [] && name !in table[0]
              && exists k :: 0 <= k < WIDTH && HEADER[k] == name && forall j :: 0 <= j < k ==> HEADER[j] in table[0]
            case e =>
              && table != [] && Complete(Columns(table[0])) && i < |table| - 1
              && Justified(table[0], table[i + 1], i + 2, e) && ReadRows(Columns(table[0]), table[1..i + 1]).Good?
  {
    hide ReadRows, Columns, StandsUnder, Under, ParseReal, ParseInt, Name, Validate;
    i := 0;
    if table != [] {
      var missing := FirstMissing(Columns(table[0]), 0);
      assert missing.None? <==> Complete(Columns(table[0]));
      if missing.Some? {
        var k := MissingIsNamed(Columns(table[0]), 0);
        ColumnsIsLast(table[0], missing.value);
        forall j | 0 <= j < k ensures HEADER[j] in table[0] {
          ColumnsIsLast(table[0], HEADER[j]);
        }
      } else {
        i := RowsFailureIsJustified(table[0], table[1..]);
        assert table[1..][..i] == table[1..i + 1];
      }
    }
  }

  lemma {:induction false} MissingIsNamed(col: map<string, nat>, from: nat) returns (k: nat)
    requires from <= WIDTH && FirstMissing(col, from).Some?
    ensures from <= k < WIDTH && HEADER[k] == FirstMissing(col, from).value && HEADER[k] !in col
    ensures forall j :: from <= j < k ==> HEADER[j] in col
    decreases WIDTH - from
  {
    hide HEADER;
    if Name(from) in col {
      k := MissingIsNamed(col, from + 1);
    } else {
      k := from;
    }
  }

  // ---- rows that are too short ----

  /** The columns in the order the reader takes their cells: the texts first. */
  const ORDER: seq<nat> := [ID, VECTOR_GROUP, COOLING, APPLICATION, RATED_POWER, HV, LV, FREQUENCY, PHASES, IMPEDANCE,
                            YEAR, NO_LOAD_LOSS, LOAD_LOSS, MASS, LENGTH, BREADTH, HEIGHT]

  function NthColumn(p: nat): (k: nat)
    requires p < WIDTH
    ensures k < WIDTH
  {
    ORDER[p]
  }

  predicate IsInteger(k: nat)
  {
    k == FREQUENCY || k == PHASES || k == YEAR
  }

  predicate IsText(k: nat)
  {
    k == ID || k == VECTOR_GROUP || k == COOLING || k == APPLICATION
  }

  /** The reader gets past the cell. */
  predicate Readable(c: seq<Loading<string>>, k: nat)
    requires |c| == WIDTH && k < WIDTH
  {
    c[k].Good? && (IsText(k) || if IsInteger(k) then ParseInt(c[k].value).Some? else ParseReal(c[k].value).Some?)
  }

  /** From the p-th cell on, the first one the reader does not get past is out of range. */
  predicate Overruns(c: seq<Loading<string>>, p: nat)
    requires |c| == WIDTH && p <= WIDTH
    decreases WIDTH - p
  {
    p < WIDTH && (c[NthColumn(p)].Panicked? || (Readable(c, NthColumn(p)) && Overruns(c, p + 1)))
  }

  lemma NumberAt(c: seq<Loading<string>>, row: nat, k: nat)
    requires |c| == WIDTH && k < WIDTH && !c[k].Failed? && !IsText(k)
    ensures if IsInteger(k) then (AsInt(c, row, k).Good? <==> Readable(c, k)) && (AsInt(c, row, k).Panicked? <==> c[k].Panicked?)
            else (AsReal(c, row, k).Good? <==> Readable(c, k)) && (AsReal(c, row, k).Panicked? <==> c[k].Panicked?)
  {
    hide ParseReal, ParseInt, Name;
  }

  lemma TextsOverrun(c: seq<Loading<string>>)
    requires |c| == WIDTH && forall k :: 0 <= k < WIDTH ==> !c[k].Failed?
    ensures Overruns(c, 0) <==>
            || c[ID].Panicked? || c[VECTOR_GROUP].Panicked? || c[COOLING].Panicked? || c[APPLICATION].Panicked?
            || Overruns(c, 4)
  {
    hide ParseReal, ParseInt;
    assert Overruns(c, 3) <==> c[APPLICATION].Panicked? || Overruns(c, 4);
    assert Overruns(c, 2) <==> c[COOLING].Panicked? || Overruns(c, 3);
    assert Overruns(c, 1) <==> c[VECTOR_GROUP].Panicked? || Overruns(c, 2);
  }

  predicate PastTexts(c: seq<Loading<string>>)
    requires |c| == WIDTH
  {
    c[ID].Good? && c[VECTOR_GROUP].Good? && c[COOLING].Good? && c[APPLICATION].Good?
  }

  /** One more number: its cell is out of range, or it is read and the next one decides. */
  lemma NumberOverruns(c: seq<Loading<string>>, row: nat, p: nat)
    requires |c| == WIDTH && 4 <= p < WIDTH && !c[NthColumn(p)].Failed?
    ensures var k := NthColumn(p);
            if IsInteger(k)
            then Overruns(c, p) <==> AsInt(c, row, k).Panicked? || (AsInt(c, row, k).Good? && Overruns(c, p + 1))
            else Overruns(c, p) <==> AsReal(c, row, k).Panicked? || (AsReal(c, row, k).Good? && Overruns(c, p + 1))
  {
    hide AsReal, AsInt, Readable;
    NumberAt(c, row, NthColumn(p));
  }

  lemma NumbersOverrun(c: seq<Loading<string>>, row: nat)
    requires |c| == WIDTH && (forall k :: 0 <= k < WIDTH ==> !c[k].Failed?) && PastTexts(c)
    ensures ReadCells(c, row).Panicked? <==> Overruns(c, 4)
  {
    hide AsReal, AsInt, Checked, Readable, Overruns;
    NumberOverruns(c, row, 4);
    NumberOverruns(c, row, 5);
    NumberOverruns(c, row, 6);
    NumberOverruns(c, row, 7);
    NumberOverruns(c, row, 8);
    NumberOverruns(c, row, 9);
    NumberOverruns(c, row, 10);
    NumberOverruns(c, row, 11);
    NumberOverruns(c, row, 12);
    NumberOverruns(c, row, 13);
    NumberOverruns(c, row, 14);
    NumberOverruns(c, row, 15);
    NumberOverruns(c, row, 16);
    NothingOverruns(c);
    CheckedDoesNotPanic(row);
  }

  lemma NothingOverruns(c: seq<Loading<string>>)
    requires |c| == WIDTH
    ensures !Overruns(c, WIDTH)
  {
  }

  lemma CheckedDoesNotPanic(row: nat)
    ensures forall t {:trigger Checked(t, row)} :: !Checked(t, row).Panicked?
  {
    hide Validate;
  }

  lemma CellsOverrunExactly(c: seq<Loading<string>>, row: nat)
    requires |c| == WIDTH && forall k :: 0 <= k < WIDTH ==> !c[k].Failed?
    ensures ReadCells(c, row).Panicked? <==> Overruns(c, 0)
  {
    hide Readable, Overruns, AsReal, AsInt, Checked;
    TextsOverrun(c);
    if PastTexts(c) {
      NumbersOverrun(c, row);
    }
  }

  /** The p-th cell taken is missing from the row, and every cell taken before it can be read. */
  ghost predicate MissingAt(col: map<string, nat>, rec: seq<string>, p: nat)
    requires Complete(col) && p < WIDTH
  {
    && col[Name(NthColumn(p))] >= |rec|
    && forall q :: 0 <= q < p ==> Readable(Cells(col, rec), NthColumn(q))
  }

  ghost predicate MissingCell(col: map<string, nat>, rec: seq<string>)
    requires Complete(col)
  {
    exists p :: 0 <= p < WIDTH && MissingAt(col, rec, p)
  }

  lemma {:induction false} OverrunsIsMissing(col: map<string, nat>, rec: seq<string>, p: nat)
    requires Complete(col) && p <= WIDTH && forall q :: 0 <= q < p ==> Readable(Cells(col, rec), NthColumn(q))
    ensures Overruns(Cells(col, rec), p) <==> MissingCell(col, rec)
    decreases WIDTH - p
  {
    hide Readable, Name, NthColumn;
    var c := Cells(col, rec);
    if p < WIDTH {
      var k := NthColumn(p);
      assert c[k] == Cell(col, rec, k);
      if c[k].Panicked? {
        assert MissingAt(col, rec, p);
      } else if Readable(c, k) {
        OverrunsIsMissing(col, rec, p + 1);
      } else {
        NothingMissing(col, rec, p);
      }
    } else {
      NothingMissing(col, rec, p);
    }
  }

  lemma NothingMissing(col: map<string, nat>, rec: seq<string>, p: nat)
    requires Complete(col) && p <= WIDTH && forall q :: 0 <= q < p ==> Readable(Cells(col, rec), NthColumn(q))
    requires p < WIDTH ==> Cell(col, rec, NthColumn(p)).Good? && !Readable(Cells(col, rec), NthColumn(p))
    ensures !MissingCell(col, rec)
  {
    hide Name, NthColumn, ParseReal, ParseInt;
    forall q | 0 <= q < WIDTH ensures !MissingAt(col, rec, q) {
      if q < p {
        assert Readable(Cells(col, rec), NthColumn(q));
        assert Cells(col, rec)[NthColumn(q)] == Cell(col, rec, NthColumn(q));
      }
    }
  }

  /** A row takes the reader out of range exactly when a cell is missing before the first that cannot be read. */
  lemma RowPanicsExactly(col: map<string, nat>, rec: seq<string>, row: nat)
    requires Complete(col)
    ensures ReadCells(Cells(col, rec), row).Panicked? <==> MissingCell(col, rec)
  {
    hide Name, ReadCells, MissingCell, Overruns;
    CellsOverrunExactly(Cells(col, rec), row);
    OverrunsIsMissing(col, rec, 0);
  }

  /** Some row with a missing cell, after rows that are all good. */
  ghost predicate PanicsAtRow(col: map<string, nat>, rows: seq<seq<string>>, i: nat)
    requires Complete(col) && i < |rows|
  {
    && (forall j :: 0 <= j < i ==> ReadCells(Cells(col, rows[j]), j + 2).Good?)
    && MissingCell(col, rows[i])
  }

  lemma {:induction false} RowsPanicExactly(col: map<string, nat>, rows: seq<seq<string>>)
    requires Complete(col)
    ensures ReadRows(col, rows).Good? <==> forall i :: 0 <= i < |rows| ==> ReadCells(Cells(col, rows[i]), i + 2).Good?
    ensures ReadRows(col, rows).Panicked? <==> exists i :: 0 <= i < |rows| && PanicsAtRow(col, rows, i)
  {
    hide ReadCells, Cells, MissingCell, Complete;
    if rows != [] {
      var n := |rows| - 1;
      RowsPanicExactly(col, rows[..n]);
      RowPanicsExactly(col, rows[n], n + 2);
      assert forall i :: 0 <= i < n ==> (PanicsAtRow(col, rows[..n], i) <==> PanicsAtRow(col, rows, i));
      assert PanicsAtRow(col, rows, n) <==> ReadRows(col, rows[..n]).Good? && MissingCell(col, rows[n]);
      LaterRowsDoNotMatter(col, rows, n);
    }
  }

  lemma LaterRowsDoNotMatter(col: map<string, nat>, rows: seq<seq<string>>, n: nat)
    requires Complete(col) && n < |rows|
    ensures (exists i :: 0 <= i < |rows[..n]| && PanicsAtRow(col, rows[..n], i)) ==>
              exists i :: 0 <= i < |rows| && PanicsAtRow(col, rows, i)
  {
    hide ReadCells, Cells, MissingCell, Complete;
    if i :| 0 <= i < n && PanicsAtRow(col, rows[..n], i) {
      assert PanicsAtRow(col, rows, i);
    }
  }

  /**
   * The reader indexes out of range exactly when the header is complete and some
   * row, after rows that are all good, lacks a cell before its first unreadable one.
   */
  lemma LoadPanicsExactly(table: seq<seq<string>>)
    ensures Load(table).Panicked? <==>
            && table != [] && Complete(Columns(table[0]))
            && exists i :: 0 <= i < |table[1..]| && PanicsAtRow(Columns(table[0]), table[1..], i)
  {
    hide ReadRows, PanicsAtRow, Columns, Name;
    if table != [] && Complete(Columns(table[0])) {
      RowsPanicExactly(Columns(table[0]), table[1..]);
    }
  }

  // ---- how wide a row must be ----

  ghost predicate SafeWidth(header: seq<string>, n: nat)
    requires Complete(Columns(header))
  {
    forall rec: seq<string>, row: nat :: |rec| == n ==> !ReadCells(Cells(Columns(header), rec), row).Panicked?
  }

  function Ones(n: nat): seq<string>
  {
    seq(n, _ => "1")
  }

  lemma OneIsReadable()
    ensures ParseInt("1").Some? && ParseReal("1").Some?
  {
    assert Unsigned("1") == "1" && "1"[0] == '1';
    SplitWhole("1", '.');
    assert "1" + "" == "1";
  }

  lemma OnesOverrun(col: map<string, nat>, n: nat, k: nat)
    requires Complete(col) && k < WIDTH && col[Name(k)] >= n
    ensures MissingCell(col, Ones(n))
  {
    hide Name, NthColumn, ParseReal, ParseInt;
    var p := FirstMissingCell(col, n, 0, k);
    OneIsReadable();
    forall q | 0 <= q < p ensures Readable(Cells(col, Ones(n)), NthColumn(q)) {
      assert Cells(col, Ones(n))[NthColumn(q)] == Cell(col, Ones(n), NthColumn(q));
    }
    assert MissingAt(col, Ones(n), p);
  }

  /** Every column is taken at some place. */
  lemma PlaceOf(k: nat) returns (p: nat)
    requires k < WIDTH
    ensures p < WIDTH && NthColumn(p) == k
  {
    p := [0, 4, 5, 6, 7, 8, 1, 9, 2, 10, 3, 11, 12, 13, 14, 15, 16][k];
  }

  lemma FirstMissingCell(col: map<string, nat>, n: nat, from: nat, k: nat) returns (p: nat)
    requires Complete(col) && from < WIDTH && k < WIDTH && col[Name(k)] >= n
    requires forall q :: 0 <= q < from ==> col[Name(NthColumn(q))] < n
    ensures p < WIDTH && col[Name(NthColumn(p))] >= n && forall q :: 0 <= q < p ==> col[Name(NthColumn(q))] < n
    decreases WIDTH - from
  {
    hide Name, NthColumn;
    var last := PlaceOf(k);
    if col[Name(NthColumn(from))] >= n {
      p := from;
    } else {
      assert last > from || last == from;
      p := FirstMissingCell(col, n, from + 1, k);
    }
  }

  /** Rows of `n` fields can never take the reader out of range exactly when every required column lies below `n`. */
  lemma SafeWidthExactly(header: seq<string>, n: nat)
    requires Complete(Columns(header))
    ensures SafeWidth(header, n) <==> forall k :: 0 <= k < WIDTH ==> Columns(header)[Name(k)] < n
  {
    hide ReadCells, Cells, Name, Columns, MissingCell;
    var col := Columns(header);
    if forall k :: 0 <= k < WIDTH ==> col[Name(k)] < n {
      forall rec: seq<string>, row: nat | |rec| == n ensures !ReadCells(Cells(col, rec), row).Panicked? {
        RowPanicsExactly(col, rec, row);
        NoCellMissing(col, rec);
      }
    } else {
      var k :| 0 <= k < WIDTH && col[Name(k)] >= n;
      OnesOverrun(col, n, k);
      RowPanicsExactly(col, Ones(n), 2);
      assert |Ones(n)| == n;
    }
  }

  lemma NoCellMissing(col: map<string, nat>, rec: seq<string>)
    requires Complete(col) && forall k :: 0 <= k < WIDTH ==> col[Name(k)] < |rec|
    ensures !MissingCell(col, rec)
  {
    hide Readable, Cells, Name;
  }

  /** So rows as wide as the header never do. */
  lemma WideRowsDoNotPanic(header: seq<string>, rows: seq<seq<string>>)
    requires Complete(Columns(header)) && forall i :: 0 <= i < |rows| ==> |rows[i]| >= |header|
    ensures !ReadRows(Columns(header), rows).Panicked?
  {
    hide Columns, Name, ReadCells, Cells, MissingCell;
    var col := Columns(header);
    RowsPanicExactly(col, rows);
    forall i | 0 <= i < |rows| ensures !PanicsAtRow(col, rows, i) {
      forall k | 0 <= k < WIDTH ensures col[Name(k)] < |rows[i]| {
        ColumnsIsLast(header, Name(k));
      }
      NoCellMissing(col, rows[i]);
    }
  }

  /** A first row with a single field always does, whatever the header. */
  lemma OneFieldPanics(header: seq<string>, field: string, rows: seq<seq<string>>)
    requires Complete(Columns(header))
    ensures Load([header, [field]] + rows) == Panicked
  {
    hide Columns, ReadCells;
    var col := Columns(header);
    HeaderIsDistinct();
    ColumnsIsLast(header, Name(ID));
    ColumnsIsLast(header, Name(VECTOR_GROUP));
    assert col[Name(ID)] != col[Name(VECTOR_GROUP)];
    var table := [header, [field]] + rows;
    assert table[1..][..0] == [];
    assert ReadRows(col, table[1..][..0]) == Good([]);
    ShortTextPanics(Cells(col, [field]), 2);
    ReadRowsStops(col, table[1..], 0);
  }

  lemma ShortTextPanics(c: seq<Loading<string>>, row: nat)
    requires |c| == WIDTH && (forall k :: 0 <= k < WIDTH ==> !c[k].Failed?) && (c[ID].Panicked? || c[VECTOR_GROUP].Panicked?)
    ensures ReadCells(c, row) == Panicked
  {
    hide AsReal, AsInt, Checked;
  }
}
