// The table of design records: how records enter it, how it is listed, and the
// candidates of a similarity request.
module DesignBase {
  import opened Wrappers
  import opened Sets
  import opened Text
  import opened Rounding
  import opened Ordering
  import opened Decimal
  import opened Transformer
  import opened Csv
  import opened Paging

  // ---- records enter the table ----

  datatype CreateError = Invalid(error: TransformerError) | CheckViolated | Conflict

  /** The columns keep two decimals. */
  function Stored(t: Transformer): Transformer
  {
    t.(ratedPower := Round2(t.ratedPower), hv := Round2(t.hv), lv := Round2(t.lv), impedance := Round2(t.impedance),
       noLoadLoss := Round2(t.noLoadLoss), loadLoss := Round2(t.loadLoss), mass := Round2(t.mass),
       length := Round2(t.length), width := Round2(t.width), height := Round2(t.height))
  }

  /** Each column shows the record's field of its own name. */
  predicate ShowsRecord(row: Transformer, t: Transformer)
  {
    && row.id == t.id && Shows(row.ratedPower, t.ratedPower) && Shows(row.hv, t.hv) && Shows(row.lv, t.lv)
    && row.frequency == t.frequency && row.phases == t.phases && row.vectorGroup == t.vectorGroup
    && Shows(row.impedance, t.impedance) && row.cooling == t.cooling && row.year == t.year
    && row.application == t.application
    && Shows(row.noLoadLoss, t.noLoadLoss) && Shows(row.loadLoss, t.loadLoss) && Shows(row.mass, t.mass)
    && Shows(row.length, t.length) && Shows(row.width, t.width) && Shows(row.height, t.height)
  }

  lemma StoredShows(t: Transformer)
    ensures ShowsRecord(Stored(t), t)
  {
    hide Shows, Round2;
    Round2Shows(t.ratedPower);
    Round2Shows(t.hv);
    Round2Shows(t.lv);
    Round2Shows(t.impedance);
    Round2Shows(t.noLoadLoss);
    Round2Shows(t.loadLoss);
    Round2Shows(t.mass);
    Round2Shows(t.length);
    Round2Shows(t.width);
    Round2Shows(t.height);
  }

  /** Column precisions and CHECK constraints of the transformers table. */
  predicate ChecksPass(t: Transformer)
  {
    && 0.0 < t.ratedPower < 1_000_000.0 && 0.0 < t.hv < 1_000_000.0 && 0.0 < t.lv < 1_000_000.0
    && (t.frequency == 50 || t.frequency == 60) && (t.phases == 1 || t.phases == 3)
    && 0.0 < t.impedance <= 40.0
    && 1960 <= t.year <= 2100
    && 0.0 <= t.noLoadLoss < 10_000_000.0 && 0.0 <= t.loadLoss < 10_000_000.0 && 0.0 < t.mass < 10_000_000.0
    && 0.0 < t.length < 10_000.0 && 0.0 < t.width < 10_000.0 && 0.0 < t.height < 10_000.0
  }

  type Table = map<string, Transformer>

  /** A request to register a record. */
  function Create(table: Table, t: Transformer): Result<Table, CreateError>
  {
    if Validate(t).Some? then Err(Invalid(Validate(t).value))
    else if !ChecksPass(Stored(t)) then Err(CheckViolated)
    else if t.id in table then Err(Conflict)
    else Ok(table[t.id := Stored(t)])
  }

  /** Inserts or updates in place, all of the fleet or none of it. */
  function UpsertAll(table: Table, fleet: seq<Transformer>): Option<Table>
  {
    if fleet == [] then Some(table)
    else
      var t, before := fleet[|fleet| - 1], UpsertAll(table, fleet[..|fleet| - 1]);
      if before.None? || !ChecksPass(Stored(t)) then None else Some(before.value[t.id := Stored(t)])
  }

  /** A record registered shows in the row of its id; every other row is as before. */
  lemma RegistrationAddsOne(table: Table, t: Transformer)
    requires Create(table, t).Ok?
    ensures var after := Create(table, t).value;
            && t.id !in table && after.Keys == table.Keys + {t.id} && ShowsRecord(after[t.id], t)
            && forall id :: id in table ==> after[id] == table[id]
  {
    hide Stored, ShowsRecord, ChecksPass, Validate;
    StoredShows(t);
  }

  /** The record stands last in the fleet among those of its id. */
  ghost predicate LastOfId(fleet: seq<Transformer>, i: int)
  {
    0 <= i < |fleet| && forall k :: i < k < |fleet| ==> fleet[k].id != fleet[i].id
  }

  function Ids(fleet: seq<Transformer>): set<string>
  {
    set i | 0 <= i < |fleet| :: fleet[i].id
  }

  lemma IdsGrow(fleet: seq<Transformer>)
    requires fleet != []
    ensures Ids(fleet) == Ids(fleet[..|fleet| - 1]) + {fleet[|fleet| - 1].id}
  {
    var front := fleet[..|fleet| - 1];
    forall i | 0 <= i < |fleet| ensures fleet[i].id in Ids(front) + {fleet[|fleet| - 1].id} {
      if i < |front| {
        assert front[i].id in Ids(front);
      }
    }
    forall i | 0 <= i < |front| ensures front[i].id in Ids(fleet) {
      assert fleet[i].id == front[i].id;
    }
  }

  lemma {:induction false} ReloadFails(table: Table, fleet: seq<Transformer>)
    ensures UpsertAll(table, fleet).None? <==> exists i :: 0 <= i < |fleet| && !ChecksPass(Stored(fleet[i]))
  {
    hide Stored, ChecksPass;
    if fleet != [] {
      var n := |fleet| - 1;
      ReloadFails(table, fleet[..n]);
      if UpsertAll(table, fleet[..n]).None? {
        var i :| 0 <= i < n && !ChecksPass(Stored(fleet[..n][i]));
        assert !ChecksPass(Stored(fleet[i]));
      } else {
        assert forall i :: 0 <= i < n ==> fleet[..n][i] == fleet[i];
      }
    }
  }

  lemma {:induction false} ReloadKeeps(table: Table, fleet: seq<Transformer>)
    requires UpsertAll(table, fleet).Some?
    ensures UpsertAll(table, fleet).value.Keys == table.Keys + Ids(fleet)
    ensures forall id :: id in table && id !in Ids(fleet) ==> UpsertAll(table, fleet).value[id] == table[id]
  {
    hide Stored, ChecksPass, Ids;
    if fleet != [] {
      IdsGrow(fleet);
      ReloadKeeps(table, fleet[..|fleet| - 1]);
    } else {
      assert Ids(fleet) == {} by { NoIds(); }
    }
  }

  lemma NoIds()
    ensures Ids([]) == {}
  {
  }

  lemma {:induction false} LastShows(table: Table, fleet: seq<Transformer>, i: int)
    requires UpsertAll(table, fleet).Some? && LastOfId(fleet, i)
    ensures fleet[i].id in UpsertAll(table, fleet).value
    ensures ShowsRecord(UpsertAll(table, fleet).value[fleet[i].id], fleet[i])
    decreases |fleet|
  {
    hide Stored, ShowsRecord, ChecksPass;
    var n := |fleet| - 1;
    if i < n {
      assert LastOfId(fleet[..n], i);
      LastShows(table, fleet[..n], i);
    } else {
      StoredShows(fleet[n]);
    }
  }

  /**
   * A reload is all or nothing: it fails exactly when some record breaks a column.
   * When it succeeds the file's last record of each id shows in its row, replacing
   * an older one, and rows the file does not name stay.
   */
  lemma ReloadReplaces(table: Table, fleet: seq<Transformer>)
    ensures UpsertAll(table, fleet).None? <==> exists i :: 0 <= i < |fleet| && !ChecksPass(Stored(fleet[i]))
    ensures UpsertAll(table, fleet).Some? ==>
              var after := UpsertAll(table, fleet).value;
              && after.Keys == table.Keys + Ids(fleet)
              && (forall i :: LastOfId(fleet, i) ==> fleet[i].id in after && ShowsRecord(after[fleet[i].id], fleet[i]))
              && (forall id :: id in table && id !in Ids(fleet) ==> after[id] == table[id])
  {
    hide UpsertAll, Ids, Stored, ShowsRecord, ChecksPass;
    ReloadFails(table, fleet);
    if UpsertAll(table, fleet).Some? {
      ReloadKeeps(table, fleet);
      forall i | LastOfId(fleet, i)
        ensures fleet[i].id in UpsertAll(table, fleet).value
        ensures ShowsRecord(UpsertAll(table, fleet).value[fleet[i].id], fleet[i])
      {
        LastShows(table, fleet, i);
      }
    }
  }

  /** What can change the table: a request to the API, or the fleet file read at a start. */
  datatype Change = Register(t: Transformer) | Reload(file: seq<seq<string>>)

  function After(table: Table, change: Change): Table
  {
    match change
    case Register(t) => if Create(table, t).Ok? then Create(table, t).value else table
    case Reload(file) =>
      if Load(file).Good? && UpsertAll(table, Load(file).value).Some? then UpsertAll(table, Load(file).value).value
      else table
  }

  function Served(table: Table, changes: seq<Change>): Table
  {
    if changes == [] then table
    else After(Served(table, changes[..|changes| - 1]), changes[|changes| - 1])
  }

  /** Every row is filed under its own id, and the id is well formed. */
  ghost predicate WellNumbered(table: Table)
  {
    forall id :: id in table ==> MatchesId(id) && table[id].id == id
  }

  lemma {:induction false} UpsertKeepsNumbers(table: Table, fleet: seq<Transformer>)
    requires WellNumbered(table) && forall i :: 0 <= i < |fleet| ==> Valid(fleet[i])
    ensures UpsertAll(table, fleet).Some? ==> WellNumbered(UpsertAll(table, fleet).value)
  {
    hide Round2, ChecksPass;
    if fleet != [] {
      UpsertKeepsNumbers(table, fleet[..|fleet| - 1]);
    }
  }

  /** The reader lets through valid records only. */
  lemma {:induction false} LoadedAreValid(col: map<string, nat>, rows: seq<seq<string>>)
    requires Complete(col) && ReadRows(col, rows).Good?
    ensures forall i :: 0 <= i < |ReadRows(col, rows).value| ==> Valid(ReadRows(col, rows).value[i])
  {
    hide AsReal, AsInt, Cells, Complete, Validate;
    if rows != [] {
      LoadedAreValid(col, rows[..|rows| - 1]);
    }
  }

  /** Through every series of registrations and reloads the ids stay well formed. */
  lemma {:induction false} AlwaysWellNumbered(table: Table, changes: seq<Change>)
    requires WellNumbered(table)
    ensures WellNumbered(Served(table, changes))
  {
    hide Round2, ChecksPass, ReadRows, UpsertAll;
    if changes != [] {
      var before, change := changes[..|changes| - 1], changes[|changes| - 1];
      AlwaysWellNumbered(table, before);
      if change.Reload? && Load(change.file).Good? {
        LoadedAreValid(Columns(change.file[0]), change.file[1..]);
        UpsertKeepsNumbers(Served(table, before), Load(change.file).value);
      }
    }
  }

  /** Registration never replaces a record. */
  lemma {:induction false} RegisteredStays(table: Table, changes: seq<Change>, id: string)
    requires id in table && forall change :: change in changes ==> change.Register?
    ensures id in Served(table, changes) && Served(table, changes)[id] == table[id]
  {
    if changes != [] {
      RegisteredStays(table, changes[..|changes| - 1], id);
      assert changes[|changes| - 1] in changes;
    }
  }

  /** What the columns keep of a valid record is valid exactly when its voltages still differ after rounding. */
  lemma StoredIsValidExactly(t: Transformer)
    requires Valid(t) && ChecksPass(Stored(t))
    ensures Valid(Stored(t)) <==> Round2(t.hv) > Round2(t.lv)
  {
    hide Round2, MatchesId;
  }

  /** Above zero at two decimals, and below a column's bound. */
  predicate FitsColumn(x: real, bound: real)
  {
    0.005 <= x < bound - 0.005
  }

  lemma FitsColumnExactly(x: real, bound: int)
    requires x > 0.0 && bound > 0
    ensures 0.0 < Round2(x) < bound as real <==> FitsColumn(x, bound as real)
  {
    RoundAgainst(x * 100.0, 1);
    RoundAgainst(x * 100.0, 100 * bound);
  }

  lemma LossFitsExactly(x: real, bound: int)
    requires x >= 0.0 && bound > 0
    ensures 0.0 <= Round2(x) < bound as real <==> x < bound as real - 0.005
  {
    RoundAgainst(x * 100.0, 0);
    if x > 0.0 {
      RoundAgainst(x * 100.0, 100 * bound);
    }
  }

  lemma ImpedanceFitsExactly(x: real)
    requires 0.0 < x <= 40.0
    ensures 0.0 < Round2(x) <= 40.0 <==> x >= 0.005
  {
    RoundAgainst(x * 100.0, 1);
    RoundAgainst(x * 100.0, 4000);
  }

  /** What the columns ask of a valid record beyond its validity. */
  predicate FitsColumns(t: Transformer)
  {
    && FitsColumn(t.ratedPower, 1_000_000.0) && t.hv < 999_999.995 && t.lv >= 0.005
    && t.impedance >= 0.005
    && t.year <= 2100
    && t.noLoadLoss < 9_999_999.995 && t.loadLoss < 9_999_999.995 && FitsColumn(t.mass, 10_000_000.0)
    && FitsColumn(t.length, 10_000.0) && FitsColumn(t.width, 10_000.0) && FitsColumn(t.height, 10_000.0)
  }

  /** Exactly which valid records the transformers table takes. */
  lemma ValidFitsExactly(t: Transformer)
    requires Valid(t)
    ensures ChecksPass(Stored(t)) <==> FitsColumns(t)
  {
    hide MatchesId;
    FitsColumnExactly(t.ratedPower, 1_000_000);
    FitsColumnExactly(t.hv, 1_000_000);
    FitsColumnExactly(t.lv, 1_000_000);
    ImpedanceFitsExactly(t.impedance);
    LossFitsExactly(t.noLoadLoss, 10_000_000);
    LossFitsExactly(t.loadLoss, 10_000_000);
    FitsColumnExactly(t.mass, 10_000_000);
    FitsColumnExactly(t.length, 10_000);
    FitsColumnExactly(t.width, 10_000);
    FitsColumnExactly(t.height, 10_000);
    hide Round2;
  }

  /** A request succeeds exactly when the record is valid, fits the columns and has a new id. */
  lemma CreateSucceedsExactly(table: Table, t: Transformer)
    ensures Create(table, t).Ok? <==> Valid(t) && FitsColumns(t) && t.id !in table
    ensures Create(table, t) == Err(CheckViolated) <==> Valid(t) && !FitsColumns(t)
  {
    hide ChecksPass, FitsColumns, Stored, Validate;
    if Valid(t) {
      ValidFitsExactly(t);
    }
  }

  /** A valid record the table refuses: commissioned after 2100. */
  lemma ValidRecordRefused() returns (t: Transformer)
    ensures Valid(t) && !ChecksPass(Stored(t))
  {
    t := Sample(10.0, 5.0).(year := 2101);
  }

  function Sample(hv: real, lv: real): Transformer
  {
    Transformer("TR-001", 100.0, hv, lv, 60, 3, "YNd11", 10.0, ONAN, 2020, "industrial", 50.0, 500.0, 100.0, 5.0, 4.0, 4.0)
  }

  /** A valid record the table takes and whose stored form is not valid: its voltages come out equal. */
  lemma StoredVoltagesCanMeet() returns (t: Transformer)
    ensures Valid(t) && ChecksPass(Stored(t)) && !Valid(Stored(t))
  {
    t := Sample(10.004, 10.001);
    ValidFitsExactly(t);
    RoundUnique(t.hv * 100.0, 1000);
    RoundUnique(t.lv * 100.0, 1000);
    StoredIsValidExactly(t);
  }

  // ---- how many rows there can be ----

  function NumberOf(id: string): int
  {
    if MatchesId(id) then IdNumber(id) else -1
  }

  function UpTo(n: nat): (s: set<int>)
    ensures forall i :: i in s <==> 0 <= i < n
  {
    if n == 0 then {} else UpTo(n - 1) + {n - 1}
  }

  lemma {:induction false} UpToSize(n: nat)
    ensures |UpTo(n)| == n
  {
    if n > 0 {
      UpToSize(n - 1);
    }
  }

  /** Three digits number at most a thousand records. */
  lemma AtMostAThousand(table: Table)
    requires WellNumbered(table)
    ensures |table.Keys| <= 1000
  {
    var ids := table.Keys;
    forall a, b | a in ids && b in ids && NumberOf(a) == NumberOf(b) ensures a == b {
      IdNumberInjective(a, b);
    }
    ImageSize(ids, NumberOf);
    forall n | n in Image(ids, NumberOf) ensures n in UpTo(1000) {
      var id :| id in ids && NumberOf(id) == n;
      IdNumberInjective(id, id);
    }
    SubsetSize(Image(ids, NumberOf), UpTo(1000));
    UpToSize(1000);
  }

  // ---- listing ----

  const BY_ID: (string, string) -> bool := TextLess

  /** Well-formed ids come in the order of their numbers. */
  lemma IdsInOrder(a: string, b: string)
    requires MatchesId(a) && MatchesId(b)
    ensures BY_ID(a, b) <==> IdNumber(a) < IdNumber(b)
  {
    assert a == "TR-" + a[3..] && b == "TR-" + b[3..];
    DigitsInOrder(a[3..], b[3..]);
    SamePrefix("TR-", a[3..], b[3..]);
  }

  lemma DigitsInOrder(x: string, y: string)
    requires |x| == |y| == 3 && AllDigits(x) && AllDigits(y)
    ensures TextLess(x, y) <==> (x[0] as int * 100 + x[1] as int * 10 + x[2] as int) < (y[0] as int * 100 + y[1] as int * 10 + y[2] as int)
  {
    assert x[1..][0] == x[1] && y[1..][0] == y[1] && x[1..][1..][0] == x[2] && y[1..][1..][0] == y[2];
    assert x[1..][1..][1..] == "" && y[1..][1..][1..] == "";
    assert IsDigit(x[0]) && IsDigit(x[1]) && IsDigit(x[2]) && IsDigit(y[0]) && IsDigit(y[1]) && IsDigit(y[2]);
  }

  lemma SameFirst(c: char, x: string, y: string)
    ensures TextLess([c] + x, [c] + y) <==> TextLess(x, y)
  {
    assert ([c] + x)[1..] == x && ([c] + y)[1..] == y;
  }

  lemma {:induction false} SamePrefix(p: string, x: string, y: string)
    ensures TextLess(p + x, p + y) <==> TextLess(x, y)
  {
    hide TextLess;
    if p == "" {
      assert p + x == x && p + y == y;
    } else {
      SamePrefix(p[1..], x, y);
      SameFirst(p[0], p[1..] + x, p[1..] + y);
      assert p + x == [p[0]] + (p[1..] + x) && p + y == [p[0]] + (p[1..] + y);
    }
  }

  lemma ByIdIsStrict()
    ensures StrictOrder(BY_ID)
  {
    forall x: string, y: string, z: string
      ensures !BY_ID(x, x)
      ensures BY_ID(x, y) && BY_ID(y, z) ==> BY_ID(x, z)
      ensures x == y || BY_ID(x, y) || BY_ID(y, x)
    {
      TextLessTrichotomy(x, y);
      TextLessTrichotomy(x, x);
      if BY_ID(x, y) && BY_ID(y, z) {
        TextLessTransitive(x, y, z);
      }
    }
  }

  /** All records, in the order of their ids. */
  ghost function Listing(table: Table): (rows: seq<Transformer>)
    ensures |rows| == |table.Keys|
    ensures forall i :: 0 <= i < |rows| ==> rows[i] in table.Values
  {
    ByIdIsStrict();
    OrderedLists(table.Keys, BY_ID);
    var ids := Ordered(table.Keys, BY_ID);
    seq(|ids|, i requires 0 <= i < |ids| => assert ids[i] in ids; table[ids[i]])
  }

  function CountTransformers(table: Table): nat
  {
    |table.Keys|
  }

  /** The page of candidates, `n` rows at most, loses nothing exactly when there are no more than `n`. */
  lemma FirstPageIsAllExactly(table: Table, n: nat)
    requires n > 0
    ensures Page(Listing(table), n, 0) == Listing(table) <==> CountTransformers(table) <= n
  {
  }

  // ---- candidates for similarity ----

  function Without(rows: seq<Transformer>, id: string): (out: seq<Transformer>)
    ensures |out| <= |rows|
  {
    if rows == [] then []
    else
      var rest := Without(rows[..|rows| - 1], id);
      if rows[|rows| - 1].id != id then rest + [rows[|rows| - 1]] else rest
  }

  /**
   * The in-place filter: kept records move to the front of the array that is
   * being read, and no slot is read after it was written.
   */
  method ExcludeTarget(candidates: array<Transformer>, id: string) returns (n: nat)
    modifies candidates
    ensures n <= candidates.Length
    ensures candidates[..n] == Without(old(candidates[..]), id)
    ensures candidates[n..] == old(candidates[n..])
  {
    n := 0;
    ghost var rows := candidates[..];
    for i := 0 to candidates.Length
      invariant n <= i
      invariant candidates[..n] == Without(rows[..i], id)
      invariant forall j :: n <= j < candidates.Length ==> candidates[j] == rows[j]
    {
      assert rows[..i + 1][..i] == rows[..i];
      var c := candidates[i];
      if c.id != id {
        candidates[n] := c;
        assert candidates[..n + 1] == Without(rows[..i], id) + [c];
        n := n + 1;
      }
    }
    assert rows[..candidates.Length] == rows;
    assert candidates[n..] == rows[n..];
  }

  ghost predicate InOrder(rows: seq<Transformer>)
  {
    forall i, j :: 0 <= i < j < |rows| ==> TextLess(rows[i].id, rows[j].id)
  }

  lemma {:induction false} WithoutIs(rows: seq<Transformer>, id: string)
    ensures forall t :: t in Without(rows, id) <==> t in rows && t.id != id
  {
    if rows != [] {
      var front, last := rows[..|rows| - 1], rows[|rows| - 1];
      WithoutIs(front, id);
      assert rows == front + [last];
    }
  }

  lemma {:induction false} WithoutInOrder(rows: seq<Transformer>, id: string)
    requires InOrder(rows)
    ensures InOrder(Without(rows, id))
  {
    hide TextLess;
    if rows != [] {
      var front, last := rows[..|rows| - 1], rows[|rows| - 1];
      WithoutInOrder(front, id);
      WithoutIs(front, id);
      var kept := Without(front, id);
      forall i | 0 <= i < |kept| ensures TextLess(kept[i].id, last.id) {
        assert kept[i] in front;
      }
    }
  }

  lemma ListingIsOrdered(table: Table)
    requires WellNumbered(table)
    ensures var rows := Listing(table);
            && InOrder(rows)
            && (forall t: Transformer :: t in rows <==> t.id in table && table[t.id] == t)
  {
    ByIdIsStrict();
    OrderedLists(table.Keys, BY_ID);
    var ids, rows := Ordered(table.Keys, BY_ID), Listing(table);
    forall i | 0 <= i < |rows| ensures rows[i].id == ids[i] && ids[i] in table && rows[i] == table[ids[i]] {
      assert ids[i] in ids;
    }
    forall i, j | 0 <= i < j < |rows| ensures TextLess(rows[i].id, rows[j].id) {
      assert BY_ID(ids[i], ids[j]);
    }
    forall t: Transformer | t.id in table && table[t.id] == t ensures t in rows {
      assert t.id in ids;
      var i :| 0 <= i < |ids| && ids[i] == t.id;
      assert rows[i] == t;
    }
  }

  /**
   * Whatever registrations and reloads the table has seen, the page of a thousand candidates
   * without the target holds exactly the other records, in the order of their ids.
   */
  lemma CandidatesAreComplete(table: Table, changes: seq<Change>, id: string)
    requires WellNumbered(table)
    ensures var now := Served(table, changes);
            var others := Without(Page(Listing(now), 1000, 0), id);
            && (forall t: Transformer :: t in others <==> t.id in now && now[t.id] == t && t.id != id)
            && InOrder(others)
            && (forall i, j :: 0 <= i < j < |others| ==>
                  MatchesId(others[i].id) && MatchesId(others[j].id) && IdNumber(others[i].id) < IdNumber(others[j].id))
  {
    AlwaysWellNumbered(table, changes);
    var now := Served(table, changes);
    AtMostAThousand(now);
    FirstPageIsAllExactly(now, 1000);
    ListingIsOrdered(now);
    WithoutIs(Listing(now), id);
    WithoutInOrder(Listing(now), id);
    hide TextLess, MatchesId, IdNumber;
    var others := Without(Page(Listing(now), 1000, 0), id);
    forall i, j | 0 <= i < j < |others|
      ensures MatchesId(others[i].id) && MatchesId(others[j].id) && IdNumber(others[i].id) < IdNumber(others[j].id)
    {
      assert others[i] in others && others[j] in others;
      IdsInOrder(others[i].id, others[j].id);
    }
  }
}
