/** The vectorized tablet scanner of the OLAP scan node. It resolves the
    materialized slots of the scan tuple to field indices of the tablet schema,
    lays out the columns the tablet reader reads, splits the parsed column
    predicates into those pushed down to storage and those evaluated on each
    chunk, translates the scan key ranges into reader parameters, maps field
    indices to global dictionaries, and then pulls filtered chunks from the
    reader. The storage engine is an oracle: the tablet lookup is an optional
    schema, the reader a script of statuses and batches, and predicate and
    conjunct evaluation are functions supplied by the caller. */
module TabletScanner {
  import opened Sequences

  /** A slot of the scan tuple: its slot id, the column name it reads and
      whether the plan materializes it. */
  datatype SlotDescriptor = SlotDescriptor(id: int, colName: string, materialized: bool)

  datatype TabletColumn = TabletColumn(name: string, isKey: bool)

  datatype TabletSchema = TabletSchema(columns: seq<TabletColumn>, numKeyColumns: nat)

  /** The key columns of a tablet are exactly its first `numKeyColumns` columns. */
  ghost predicate KeysFirst(schema: TabletSchema) {
    && schema.numKeyColumns <= |schema.columns|
    && forall i :: 0 <= i < |schema.columns| ==>
         (schema.columns[i].isKey <==> i < schema.numKeyColumns)
  }

  datatype Status =
    | Ok
    | Cancelled
    | EndOfFile
    | StorageError(code: int)
    | InternalError(error: ScanError)

  datatype ScanError =
    | TabletNotFound
    | InvalidFieldName(name: string)
    | NoMaterializedSlot
    | ReaderPrepareFailed(cause: Status)
    | ReaderOpenFailed(cause: Status)

  // ---------------------------------------------------------------------------
  // Field lookup and the scanner columns (`_init_return_columns`)
  // ---------------------------------------------------------------------------

  /** Position of the first occurrence of `name`, or -1 when there is none. */
  function IndexOf(names: seq<string>, name: string): (r: int)
    ensures -1 <= r < |names|
    ensures r >= 0 ==> names[r] == name && forall j :: 0 <= j < r ==> names[j] != name
    ensures r == -1 <==> forall j :: 0 <= j < |names| ==> names[j] != name
  {
    if names == [] then -1
    else if names[0] == name then 0
    else
      var r := IndexOf(names[1..], name);
      if r < 0 then -1 else r + 1
  }

  function ColumnNames(schema: TabletSchema): (names: seq<string>)
    ensures |names| == |schema.columns|
  {
    seq(|schema.columns|, i requires 0 <= i < |schema.columns| => schema.columns[i].name)
  }

  /** `Tablet::field_index`: the index of the column of that name, or -1. */
  function FieldIndex(schema: TabletSchema, name: string): int {
    IndexOf(ColumnNames(schema), name)
  }

  /** A resolved field index names a column of that name; -1 means no column has it. */
  lemma FieldIndexFound(schema: TabletSchema, name: string)
    ensures var r := FieldIndex(schema, name);
      -1 <= r < |schema.columns|
      && (r >= 0 ==> schema.columns[r].name == name)
      && (r < 0 <==> forall j :: 0 <= j < |schema.columns| ==> schema.columns[j].name != name)
  {
    var names := ColumnNames(schema);
    assert forall j :: 0 <= j < |schema.columns| ==> names[j] == schema.columns[j].name;
  }

  function IsMaterialized(slot: SlotDescriptor): bool {
    slot.materialized
  }

  /** The state the slot loop of `_init_return_columns` builds: the field
      indices and slots pushed so far, and the name of the materialized slot
      that did not resolve, once there is one (the loop stops there). */
  datatype Resolution = Resolution(columns: seq<int>, querySlots: seq<SlotDescriptor>, invalid: Option<string>)

  function Resolve(slots: seq<SlotDescriptor>, schema: TabletSchema): (r: Resolution)
    ensures |r.columns| == |r.querySlots|
  {
    if slots == [] then Resolution([], [], None)
    else
      var init := Resolve(slots[..|slots| - 1], schema);
      var slot := slots[|slots| - 1];
      if init.invalid.Some? || !slot.materialized then init
      else
        var index := FieldIndex(schema, slot.colName);
        if index < 0 then Resolution(init.columns, init.querySlots, Some(slot.colName))
        else Resolution(init.columns + [index], init.querySlots + [slot], None)
  }

  /** Every materialized slot names a column of the tablet. */
  ghost predicate AllResolve(slots: seq<SlotDescriptor>, schema: TabletSchema) {
    forall i :: 0 <= i < |slots| && slots[i].materialized ==> FieldIndex(schema, slots[i].colName) >= 0
  }

  /** Without an unresolvable slot, the query slots are exactly the
      materialized slots in order, and each column is the field index of its
      slot's name. An unresolvable name is reported exactly when some
      materialized slot does not resolve. */
  lemma {:induction false} ResolveMaterialized(slots: seq<SlotDescriptor>, schema: TabletSchema)
    ensures var r := Resolve(slots, schema);
      && (r.invalid.None? <==> AllResolve(slots, schema))
      && (r.invalid.None? ==>
            && r.querySlots == Filter(slots, IsMaterialized)
            && forall i :: 0 <= i < |r.columns| ==>
                 r.columns[i] == FieldIndex(schema, r.querySlots[i].colName) && r.columns[i] >= 0)
  {
    if slots != [] {
      var init := slots[..|slots| - 1];
      ResolveMaterialized(init, schema);
      var slot := slots[|slots| - 1];
      assert forall i :: 0 <= i < |init| ==> init[i] == slots[i];
      if Resolve(init, schema).invalid.Some? {
        assert !AllResolve(init, schema);
      }
    }
  }

  /** A reported name belongs to the first materialized slot that does not
      resolve: every materialized slot before it resolves. */
  lemma {:induction false} ResolveReportsFirstInvalid(slots: seq<SlotDescriptor>, schema: TabletSchema)
    requires Resolve(slots, schema).invalid.Some?
    ensures exists k :: 0 <= k < |slots| && slots[k].materialized
                          && slots[k].colName == Resolve(slots, schema).invalid.value
                          && FieldIndex(schema, slots[k].colName) < 0
                          && AllResolve(slots[..k], schema)
  {
    var init := slots[..|slots| - 1];
    var k := |slots| - 1;
    if Resolve(init, schema).invalid.Some? {
      ResolveReportsFirstInvalid(init, schema);
      var j :| 0 <= j < |init| && init[j].materialized
        && init[j].colName == Resolve(init, schema).invalid.value
        && FieldIndex(schema, init[j].colName) < 0
        && AllResolve(init[..j], schema);
      assert init[..j] == slots[..j];
      assert slots[j] == init[j];
    } else {
      ResolveMaterialized(init, schema);
      assert slots[..k] == init;
    }
  }

  /** Once the loop has failed, later slots change nothing. */
  lemma {:induction false} ResolveStopsAtFailure(slots: seq<SlotDescriptor>, schema: TabletSchema, k: nat)
    requires k <= |slots| && Resolve(slots[..k], schema).invalid.Some?
    ensures Resolve(slots, schema) == Resolve(slots[..k], schema)
    decreases |slots| - k
  {
    if k < |slots| {
      assert slots[..k + 1][..k] == slots[..k];
      ResolveStopsAtFailure(slots, schema, k + 1);
    } else {
      assert slots[..k] == slots;
    }
  }

  /** The status `_init_return_columns` returns. */
  function ReturnColumnsStatus(r: Resolution): (s: Status)
    ensures s == Ok <==> r.invalid.None? && r.columns != []
    ensures s != Ok ==> s.InternalError?
  {
    match r.invalid
    case Some(name) => InternalError(InvalidFieldName(name))
    case None => if r.columns == [] then InternalError(NoMaterializedSlot) else Ok
  }

  /** The scanner columns `_init_return_columns` leaves: sorted when the loop
      finished, the unsorted prefix when it stopped at an invalid name. */
  function ScannerColumnsOf(r: Resolution): seq<int> {
    if r.invalid.Some? then r.columns else Sort(r.columns)
  }

  /** `_init_return_columns` succeeds exactly when every materialized slot
      resolves and at least one slot is materialized. */
  lemma ReturnColumnsOk(slots: seq<SlotDescriptor>, schema: TabletSchema)
    ensures ReturnColumnsStatus(Resolve(slots, schema)) == Ok <==>
              AllResolve(slots, schema) && exists i :: 0 <= i < |slots| && slots[i].materialized
  {
    var r := Resolve(slots, schema);
    ResolveMaterialized(slots, schema);
    if r.invalid.None? {
      var m := Filter(slots, IsMaterialized);
      if exists i :: 0 <= i < |slots| && slots[i].materialized {
        var i :| 0 <= i < |slots| && slots[i].materialized;
        FilterHasMember(slots, IsMaterialized, i);
      }
      if m != [] {
        FilterSubset(slots, IsMaterialized);
        assert m[0] in slots && m[0].materialized;
      }
    }
  }

  /** After a successful `_init_return_columns` the scanner columns are the
      field indices of the materialized slots, ascending and as a permutation,
      and each is a valid column index. */
  lemma ScannerColumnsSorted(slots: seq<SlotDescriptor>, schema: TabletSchema)
    requires ReturnColumnsStatus(Resolve(slots, schema)) == Ok
    ensures var r := Resolve(slots, schema);
      var cols := ScannerColumnsOf(r);
      && Sorted(cols) && |cols| > 0
      && multiset(cols) == multiset(r.columns)
      && forall i :: 0 <= i < |cols| ==> 0 <= cols[i] < |schema.columns|
  {
    var r := Resolve(slots, schema);
    ResolveMaterialized(slots, schema);
    SortSorted(r.columns);
    var cols := Sort(r.columns);
    forall i | 0 <= i < |cols| ensures 0 <= cols[i] < |schema.columns| {
      assert cols[i] in multiset(r.columns);
      var j :| 0 <= j < |r.columns| && r.columns[j] == cols[i];
      FieldIndexFound(schema, r.querySlots[j].colName);
    }
  }

  // ---------------------------------------------------------------------------
  // The reader columns (`_init_reader_params`, return columns)
  // ---------------------------------------------------------------------------

  function IsKeyColumn(schema: TabletSchema, index: int): bool {
    0 <= index < |schema.columns| && schema.columns[index].isKey
  }

  function KeyOf(schema: TabletSchema): int -> bool {
    index => IsKeyColumn(schema, index)
  }

  function ValueOf(schema: TabletSchema): int -> bool {
    index => !IsKeyColumn(schema, index)
  }

  /** `0, 1, ..., n - 1`. */
  function KeyPrefix(n: nat): (r: seq<int>)
    ensures |r| == n
  {
    seq(n, i => i)
  }

  /** The columns the tablet reader reads: the scanner columns when
      aggregation is skipped, otherwise every key column followed by the
      non-key scanner columns. */
  function ReaderColumns(skipAggregation: bool, scannerColumns: seq<int>, schema: TabletSchema): (r: seq<int>)
    ensures !skipAggregation ==>
      |r| >= schema.numKeyColumns && forall i :: 0 <= i < schema.numKeyColumns ==> r[i] == i
    ensures forall i :: 0 <= i < |r| ==> r[i] in scannerColumns || 0 <= r[i] < schema.numKeyColumns
  {
    if skipAggregation then scannerColumns
    else
      FilterSubset(scannerColumns, ValueOf(schema));
      KeyPrefix(schema.numKeyColumns) + Filter(scannerColumns, ValueOf(schema))
  }

  ghost predicate ValidIndices(cols: seq<int>, schema: TabletSchema) {
    forall i :: 0 <= i < |cols| ==> 0 <= cols[i] < |schema.columns|
  }

  /** The reader columns are columns of the schema when the scanner columns
      are and the schema has no more key columns than columns. */
  lemma ReaderColumnsValid(skipAggregation: bool, scannerColumns: seq<int>, schema: TabletSchema)
    requires schema.numKeyColumns <= |schema.columns| && ValidIndices(scannerColumns, schema)
    ensures ValidIndices(ReaderColumns(skipAggregation, scannerColumns, schema), schema)
  {
    var r := ReaderColumns(skipAggregation, scannerColumns, schema);
    forall i | 0 <= i < |r| ensures 0 <= r[i] < |schema.columns| {
      if r[i] in scannerColumns {
        var j :| 0 <= j < |scannerColumns| && scannerColumns[j] == r[i];
      }
    }
  }

  /** Without skipped aggregation the reader reads every key column, and every
      scanner column is read; the reader columns are ascending. */
  lemma {:induction false} ReaderColumnsLayout(skipAggregation: bool, scannerColumns: seq<int>, schema: TabletSchema)
    requires KeysFirst(schema) && Sorted(scannerColumns) && ValidIndices(scannerColumns, schema)
    ensures var r := ReaderColumns(skipAggregation, scannerColumns, schema);
      && Sorted(r)
      && (forall i :: 0 <= i < |scannerColumns| ==> scannerColumns[i] in r)
      && (!skipAggregation ==> forall k :: 0 <= k < schema.numKeyColumns ==> r[k] == k)
  {
    if !skipAggregation {
      var nk := schema.numKeyColumns;
      var values := Filter(scannerColumns, ValueOf(schema));
      FilterSorted(scannerColumns, ValueOf(schema));
      FilterSubset(scannerColumns, ValueOf(schema));
      var r := KeyPrefix(nk) + values;
      forall j | 0 <= j < |values| ensures values[j] >= nk {
        assert values[j] in scannerColumns;
      }
      forall i | 0 <= i < |scannerColumns| ensures scannerColumns[i] in r {
        var x := scannerColumns[i];
        if IsKeyColumn(schema, x) {
          assert r[x] == x;
        } else {
          FilterHasMember(scannerColumns, ValueOf(schema), i);
          FilterKeeps(scannerColumns, ValueOf(schema), i);
        }
      }
    }
  }

  /** The projection iterator is the reader itself exactly when the two column
      lists have equal length: for distinct ascending scanner columns, equal
      length means equal lists. */
  lemma ProjectionIsIdentity(skipAggregation: bool, scannerColumns: seq<int>, schema: TabletSchema)
    requires KeysFirst(schema) && StrictlySorted(scannerColumns) && ValidIndices(scannerColumns, schema)
    ensures var r := ReaderColumns(skipAggregation, scannerColumns, schema);
      |r| == |scannerColumns| <==> r == scannerColumns
  {
    if !skipAggregation {
      var nk := schema.numKeyColumns;
      var keys := Filter(scannerColumns, KeyOf(schema));
      var values := Filter(scannerColumns, ValueOf(schema));
      FilterPartition(scannerColumns, KeyOf(schema), ValueOf(schema));
      if |KeyPrefix(nk) + values| == |scannerColumns| {
        FilterStrictlySorted(scannerColumns, KeyOf(schema));
        FilterSubset(scannerColumns, KeyOf(schema));
        forall x | x in keys ensures 0 <= x < nk {
          assert KeyOf(schema)(x);
        }
        StrictlySortedBelowIsRange(keys, nk);
        SortedSplit(scannerColumns, KeyOf(schema), ValueOf(schema), nk);
      }
    }
  }

  // ---------------------------------------------------------------------------
  // Predicate split (`_init_reader_params`, parsed predicates)
  // ---------------------------------------------------------------------------

  /** A parsed column predicate, known by identity. */
  datatype ColumnPredicate = ColumnPredicate(id: nat)

  function Not<T>(f: T -> bool): T -> bool {
    x => !f(x)
  }

  /** Every parsed predicate goes to exactly one side: the pushed ones are
      those the parser can push down, the residual ones the others, each side
      in the parsed order, and together they are the parsed predicates. */
  lemma PredicateSplit(preds: seq<ColumnPredicate>, canPushdown: ColumnPredicate -> bool)
    ensures var pushed, residual := Filter(preds, canPushdown), Filter(preds, Not(canPushdown));
      && multiset(pushed) + multiset(residual) == multiset(preds)
      && |pushed| + |residual| == |preds|
      && (forall i :: 0 <= i < |pushed| ==> canPushdown(pushed[i]))
      && (forall i :: 0 <= i < |residual| ==> !canPushdown(residual[i]))
  {
    FilterPartition(preds, canPushdown, Not(canPushdown));
  }

  // ---------------------------------------------------------------------------
  // Key ranges (`_init_reader_params`, range)
  // ---------------------------------------------------------------------------

  /** A scan key range: begin and end tuples and whether each end is inclusive. */
  datatype OlapScanRange = OlapScanRange(beginScanRange: seq<string>, beginInclude: bool,
                                         endScanRange: seq<string>, endInclude: bool)

  /** The sentinel value of an unbounded begin key. */
  const NegativeInfinity: string := "-oo"

  function HasLowerBound(r: OlapScanRange): bool {
    !(|r.beginScanRange| == 1 && r.beginScanRange[0] == NegativeInfinity)
  }

  /** The key-range part of the reader parameters; `None` is a comparison the
      scanner never set. */
  datatype KeyRanges = KeyRanges(range: Option<string>, endRange: Option<string>,
                                 startKey: seq<seq<string>>, endKey: seq<seq<string>>)

  const NoKeyRanges := KeyRanges(None, None, [], [])

  function BeginOp(r: OlapScanRange): string {
    if r.beginInclude then "ge" else "gt"
  }

  function EndOp(r: OlapScanRange): string {
    if r.endInclude then "le" else "lt"
  }

  /** The range loop, over the ranges in order. */
  function TranslateRanges(ranges: seq<OlapScanRange>, init: KeyRanges): (r: KeyRanges)
    ensures |init.startKey| <= |r.startKey| && r.startKey[..|init.startKey|] == init.startKey
    ensures |init.endKey| <= |r.endKey| && r.endKey[..|init.endKey|] == init.endKey
    ensures |r.startKey| - |init.startKey| == |r.endKey| - |init.endKey| <= |ranges|
  {
    if ranges == [] then init
    else
      var k := TranslateRanges(ranges[..|ranges| - 1], init);
      var r := ranges[|ranges| - 1];
      if !HasLowerBound(r) then k
      else KeyRanges(Some(BeginOp(r)), Some(EndOp(r)), k.startKey + [r.beginScanRange], k.endKey + [r.endScanRange])
  }

  function BeginKeys(rs: seq<OlapScanRange>): (keys: seq<seq<string>>)
    ensures |keys| == |rs|
  {
    seq(|rs|, i requires 0 <= i < |rs| => rs[i].beginScanRange)
  }

  function EndKeys(rs: seq<OlapScanRange>): (keys: seq<seq<string>>)
    ensures |keys| == |rs|
  {
    seq(|rs|, i requires 0 <= i < |rs| => rs[i].endScanRange)
  }

  /** Ranges with an unbounded begin are skipped; every other range appends its
      begin key to the start keys and its end key to the end keys, so the two
      stay equally long. */
  lemma {:induction false} TranslateRangesKeys(ranges: seq<OlapScanRange>, init: KeyRanges)
    ensures var kept := Filter(ranges, HasLowerBound);
      var k := TranslateRanges(ranges, init);
      && k.startKey == init.startKey + BeginKeys(kept)
      && k.endKey == init.endKey + EndKeys(kept)
      && (|init.startKey| == |init.endKey| ==> |k.startKey| == |k.endKey|)
  {
    if ranges == [] {
      assert init.startKey + [] == init.startKey && init.endKey + [] == init.endKey;
    } else {
      var prefix := ranges[..|ranges| - 1];
      var r := ranges[|ranges| - 1];
      TranslateRangesKeys(prefix, init);
      var before := Filter(prefix, HasLowerBound);
      var k := TranslateRanges(prefix, init);
      if HasLowerBound(r) {
        assert Filter(ranges, HasLowerBound) == before + [r];
        assert BeginKeys(before + [r]) == BeginKeys(before) + [r.beginScanRange];
        assert EndKeys(before + [r]) == EndKeys(before) + [r.endScanRange];
        assert TranslateRanges(ranges, init).startKey == k.startKey + [r.beginScanRange];
        assert TranslateRanges(ranges, init).endKey == k.endKey + [r.endScanRange];
      } else {
        assert Filter(ranges, HasLowerBound) == before + [];
        assert before + [] == before;
      }
    }
  }

  /** The comparisons come from the last range that was not skipped; when every
      range was skipped they are left as they were. */
  lemma {:induction false} TranslateRangesLastWins(ranges: seq<OlapScanRange>, init: KeyRanges)
    ensures var kept := Filter(ranges, HasLowerBound);
      var k := TranslateRanges(ranges, init);
      && (kept == [] ==> k.range == init.range && k.endRange == init.endRange)
      && (kept != [] ==> k.range == Some(BeginOp(kept[|kept| - 1]))
                         && k.endRange == Some(EndOp(kept[|kept| - 1])))
  {
    if ranges != [] {
      var prefix := ranges[..|ranges| - 1];
      var r := ranges[|ranges| - 1];
      TranslateRangesLastWins(prefix, init);
      var before := Filter(prefix, HasLowerBound);
      if HasLowerBound(r) {
        assert Filter(ranges, HasLowerBound) == before + [r];
      } else {
        assert Filter(ranges, HasLowerBound) == before + [];
        assert before + [] == before;
      }
    }
  }

  // ---------------------------------------------------------------------------
  // Global dictionaries (`_init_global_dicts`)
  // ---------------------------------------------------------------------------

  /** Identity of a global dictionary held by the runtime state. */
  type DictId = nat

  /** A materialized slot whose slot id has a global dictionary. */
  function HasDict(slot: SlotDescriptor, runtimeDicts: map<int, DictId>): bool {
    slot.materialized && slot.id in runtimeDicts
  }

  /** The slot loop; `emplace` leaves an existing key alone. */
  function GlobalDicts(slots: seq<SlotDescriptor>, schema: TabletSchema, runtimeDicts: map<int, DictId>): (r: map<int, DictId>)
    ensures forall k :: k in r ==> r[k] in runtimeDicts.Values
  {
    if slots == [] then map[]
    else
      var m := GlobalDicts(slots[..|slots| - 1], schema, runtimeDicts);
      var slot := slots[|slots| - 1];
      if !HasDict(slot, runtimeDicts) then m
      else
        var index := FieldIndex(schema, slot.colName);
        if index in m then m else m[index := runtimeDicts[slot.id]]
  }

  /** Some materialized slot with a global dictionary has field index `k`. */
  ghost predicate DictKey(slots: seq<SlotDescriptor>, schema: TabletSchema, runtimeDicts: map<int, DictId>, k: int) {
    exists i :: 0 <= i < |slots| && HasDict(slots[i], runtimeDicts) && FieldIndex(schema, slots[i].colName) == k
  }

  /** The map has a key exactly for the field index of each materialized slot
      with a global dictionary. */
  lemma {:induction false} GlobalDictsKeys(slots: seq<SlotDescriptor>, schema: TabletSchema,
                                           runtimeDicts: map<int, DictId>)
    ensures forall k :: k in GlobalDicts(slots, schema, runtimeDicts) <==> DictKey(slots, schema, runtimeDicts, k)
  {
    if slots != [] {
      var prefix := slots[..|slots| - 1];
      var last := |slots| - 1;
      assert forall i :: 0 <= i < last ==> prefix[i] == slots[i];
      GlobalDictsKeys(prefix, schema, runtimeDicts);
      forall k ensures k in GlobalDicts(slots, schema, runtimeDicts) <==> DictKey(slots, schema, runtimeDicts, k) {
        if k in GlobalDicts(prefix, schema, runtimeDicts) {
          assert DictKey(prefix, schema, runtimeDicts, k);
          var i :| 0 <= i < |prefix| && HasDict(prefix[i], runtimeDicts)
                   && FieldIndex(schema, prefix[i].colName) == k;
          assert slots[i] == prefix[i];
        } else if DictKey(slots, schema, runtimeDicts, k) {
          var i :| 0 <= i < |slots| && HasDict(slots[i], runtimeDicts)
                   && FieldIndex(schema, slots[i].colName) == k;
          assert i == last;
        }
      }
    }
  }

  /** A key maps to the dictionary of the first slot that produced it. */
  lemma {:induction false} GlobalDictsFirstWins(slots: seq<SlotDescriptor>, schema: TabletSchema,
                                                runtimeDicts: map<int, DictId>, i: nat)
    requires i < |slots| && HasDict(slots[i], runtimeDicts)
    requires forall j :: 0 <= j < i && HasDict(slots[j], runtimeDicts)
               ==> FieldIndex(schema, slots[j].colName) != FieldIndex(schema, slots[i].colName)
    ensures var m := GlobalDicts(slots, schema, runtimeDicts);
      var k := FieldIndex(schema, slots[i].colName);
      k in m && m[k] == runtimeDicts[slots[i].id]
  {
    var prefix := slots[..|slots| - 1];
    var k := FieldIndex(schema, slots[i].colName);
    if i < |slots| - 1 {
      assert prefix[i] == slots[i];
      GlobalDictsFirstWins(prefix, schema, runtimeDicts, i);
    } else {
      GlobalDictsKeys(prefix, schema, runtimeDicts);
    }
  }

  // ---------------------------------------------------------------------------
  // The pull loop of `get_chunk`
  // ---------------------------------------------------------------------------

  /** A row of a chunk, one value per column. */
  type Row = seq<int>

  /** A conjunct expression context, known by identity. */
  datatype ExprContext = ExprContext(id: nat)

  function PassesAll<P>(conds: seq<P>, eval: (P, Row) -> bool, row: Row): bool {
    forall i :: 0 <= i < |conds| ==> eval(conds[i], row)
  }

  function Passes<P>(conds: seq<P>, eval: (P, Row) -> bool): Row -> bool {
    row => PassesAll(conds, eval, row)
  }

  /** The residual predicates and the conjuncts a chunk is filtered by, with
      the evaluation of each on a row. */
  datatype Conditions = Conditions(predicates: seq<ColumnPredicate>, evalPredicate: (ColumnPredicate, Row) -> bool,
                                   conjuncts: seq<ExprContext>, evalConjunct: (ExprContext, Row) -> bool)

  function PassesConditions(c: Conditions): Row -> bool {
    row => PassesAll(c.predicates, c.evalPredicate, row) && PassesAll(c.conjuncts, c.evalConjunct, row)
  }

  /** The rows of a chunk that survive the two filtering steps, each taken only
      when its list is non-empty. */
  function Survivors(rows: seq<Row>, c: Conditions): (r: seq<Row>)
    ensures |r| <= |rows|
  {
    var afterPredicates := if c.predicates != [] then Filter(rows, Passes(c.predicates, c.evalPredicate)) else rows;
    if c.conjuncts != [] then Filter(afterPredicates, Passes(c.conjuncts, c.evalConjunct)) else afterPredicates
  }

  /** Every surviving row is one of the batch's rows, as often at most as it was read. */
  lemma SurvivorsSubset(rows: seq<Row>, c: Conditions)
    ensures multiset(Survivors(rows, c)) <= multiset(rows)
  {
    SurvivorsAreConjunction(rows, c);
    FilterSubset(rows, PassesConditions(c));
  }

  /** The two filtering steps keep exactly the rows that satisfy every residual
      predicate and every conjunct, in order. */
  lemma SurvivorsAreConjunction(rows: seq<Row>, c: Conditions)
    ensures Survivors(rows, c) == Filter(rows, PassesConditions(c))
  {
    var p, q := Passes(c.predicates, c.evalPredicate), Passes(c.conjuncts, c.evalConjunct);
    var all := PassesConditions(c);
    if c.predicates == [] && c.conjuncts == [] {
      FilterAll(rows, all);
    } else if c.predicates == [] {
      FilterEquiv(rows, q, all);
    } else if c.conjuncts == [] {
      FilterEquiv(rows, p, all);
    } else {
      FilterFilter(rows, p, q, all);
    }
  }

  /** A batch the reader yields: its rows and the bytes and rows it read to produce them. */
  datatype ReaderBatch = ReaderBatch(rows: seq<Row>, compressedBytes: nat, rawRows: nat)

  function BytesRead(batches: seq<ReaderBatch>): nat {
    if batches == [] then 0 else batches[0].compressedBytes + BytesRead(batches[1..])
  }

  function RowsRead(batches: seq<ReaderBatch>): nat {
    if batches == [] then 0 else batches[0].rawRows + RowsRead(batches[1..])
  }

  /** What one `get_chunk` does after the cancellation check: its status, the
      rows left in the chunk and how many batches it consumed. */
  datatype Pulled = Pulled(status: Status, rows: seq<Row>, consumed: nat)

  /** The do-while loop over the batches the reader has left, then its final
      status; `current` is what the chunk holds before the next pull. */
  function Pull(batches: seq<ReaderBatch>, endStatus: Status, current: seq<Row>, c: Conditions): (p: Pulled)
    ensures p.consumed <= |batches|
  {
    if batches == [] then Pulled(endStatus, current, 0)
    else
      var rows := Survivors(batches[0].rows, c);
      if rows != [] then Pulled(Ok, rows, 1)
      else
        var p := Pull(batches[1..], endStatus, rows, c);
        Pulled(p.status, p.rows, p.consumed + 1)
  }

  /** An OK pull ends at a batch that keeps a row, and hands back its survivors. */
  lemma {:induction false} PullOkLast(batches: seq<ReaderBatch>, endStatus: Status, current: seq<Row>, c: Conditions)
    requires endStatus != Ok
    requires Pull(batches, endStatus, current, c).status == Ok
    ensures var p := Pull(batches, endStatus, current, c);
      1 <= p.consumed && p.rows == Survivors(batches[p.consumed - 1].rows, c) && p.rows != []
  {
    var rows := Survivors(batches[0].rows, c);
    if rows == [] {
      var tail := batches[1..];
      PullOkLast(tail, endStatus, rows, c);
      var q := Pull(tail, endStatus, rows, c);
      assert batches[q.consumed] == tail[q.consumed - 1];
    }
  }

  /** Every batch an OK pull consumed before its last one was filtered to nothing. */
  lemma {:induction false} PullOkSkipped(batches: seq<ReaderBatch>, endStatus: Status, current: seq<Row>, c: Conditions)
    requires endStatus != Ok
    requires Pull(batches, endStatus, current, c).status == Ok
    ensures var p := Pull(batches, endStatus, current, c);
      forall j :: 0 <= j < p.consumed - 1 ==> Survivors(batches[j].rows, c) == []
  {
    var rows := Survivors(batches[0].rows, c);
    if rows == [] {
      var tail := batches[1..];
      PullOkSkipped(tail, endStatus, rows, c);
      var q := Pull(tail, endStatus, rows, c);
      forall j | 0 <= j < q.consumed ensures Survivors(batches[j].rows, c) == [] {
        if j > 0 {
          assert batches[j] == tail[j - 1];
        }
      }
    }
  }

  /** An OK pull hands back a non-empty chunk whose every row satisfies the
      residual predicates and the conjuncts: the rows that survive of the last
      batch consumed, every earlier batch having been filtered to nothing. */
  lemma PullOk(batches: seq<ReaderBatch>, endStatus: Status, current: seq<Row>, c: Conditions)
    requires endStatus != Ok
    requires Pull(batches, endStatus, current, c).status == Ok
    ensures var p := Pull(batches, endStatus, current, c);
      && p.rows != []
      && (forall i :: 0 <= i < |p.rows| ==> PassesConditions(c)(p.rows[i]))
      && 1 <= p.consumed && p.rows == Survivors(batches[p.consumed - 1].rows, c)
      && forall j :: 0 <= j < p.consumed - 1 ==> Survivors(batches[j].rows, c) == []
  {
    var p := Pull(batches, endStatus, current, c);
    PullOkLast(batches, endStatus, current, c);
    PullOkSkipped(batches, endStatus, current, c);
    var rows := batches[p.consumed - 1].rows;
    SurvivorsAreConjunction(rows, c);
    assert p.rows == Filter(rows, PassesConditions(c));
  }

  /** A pull that is not OK returns the reader's final status, having consumed
      every batch, none of which left a row. */
  lemma {:induction false} PullStops(batches: seq<ReaderBatch>, endStatus: Status, current: seq<Row>, c: Conditions)
    requires Pull(batches, endStatus, current, c).status != Ok
    ensures var p := Pull(batches, endStatus, current, c);
      && p.status == endStatus && p.consumed == |batches|
      && (forall j :: 0 <= j < |batches| ==> Survivors(batches[j].rows, c) == [])
      && p.rows == (if batches == [] then current else [])
  {
    if batches != [] {
      var rows := Survivors(batches[0].rows, c);
      PullStops(batches[1..], endStatus, rows, c);
    }
  }

  /** Bytes and rows read over a concatenation add up. */
  lemma {:induction false} ReadAppend(a: seq<ReaderBatch>, b: seq<ReaderBatch>)
    ensures BytesRead(a + b) == BytesRead(a) + BytesRead(b)
    ensures RowsRead(a + b) == RowsRead(a) + RowsRead(b)
  {
    if a != [] {
      assert (a + b)[1..] == a[1..] + b;
      ReadAppend(a[1..], b);
    } else {
      assert a + b == b;
    }
  }

  // ---------------------------------------------------------------------------
  // Slot bindings of a chunk
  // ---------------------------------------------------------------------------

  /** The name of a column of the schema; an index outside the schema, which
      only a schema with more key columns than columns could give, has none. */
  function ColumnName(schema: TabletSchema, index: int): string {
    if 0 <= index < |schema.columns| then schema.columns[index].name else ""
  }

  /** The field names of a chunk over the columns `cols`, in order. */
  function OutputNames(schema: TabletSchema, cols: seq<int>): (names: seq<string>)
    ensures |names| == |cols|
  {
    seq(|cols|, i requires 0 <= i < |cols| => ColumnName(schema, cols[i]))
  }

  /** The columns of the chunks the scanner hands out: the reader's own when
      the reader serves as its own projection (the two lists have equal
      length), the scanner columns when a projection is built. */
  function OutputColumns(readerColumns: seq<int>, scannerColumns: seq<int>): seq<int> {
    if |readerColumns| == |scannerColumns| then readerColumns else scannerColumns
  }

  /** The slot loop of `get_chunk`: each query slot id bound to the position
      of its column name in the chunk, a later slot overriding an earlier one. */
  function SlotIndexMap(slots: seq<SlotDescriptor>, names: seq<string>): (r: map<int, int>)
    ensures forall i :: 0 <= i < |slots| ==> slots[i].id in r
    ensures forall id :: id in r ==> -1 <= r[id] < |names|
  {
    if slots == [] then map[]
    else
      var slot := slots[|slots| - 1];
      SlotIndexMap(slots[..|slots| - 1], names)[slot.id := IndexOf(names, slot.colName)]
  }

  /** Binding one more slot on top of a merged map is merging one more binding. */
  lemma BindOneMore(start: map<int, int>, slots: seq<SlotDescriptor>, names: seq<string>, i: nat)
    requires i < |slots|
    ensures (start + SlotIndexMap(slots[..i], names))[slots[i].id := IndexOf(names, slots[i].colName)]
         == start + SlotIndexMap(slots[..i + 1], names)
  {
    assert slots[..i + 1][..i] == slots[..i];
  }

  /** Binding the slots again changes nothing. */
  lemma SlotBindingIdempotent(m: map<int, int>, slots: seq<SlotDescriptor>, names: seq<string>)
    ensures (m + SlotIndexMap(slots, names)) + SlotIndexMap(slots, names) == m + SlotIndexMap(slots, names)
  {
  }

  /** Every query slot id is bound, and a slot not overridden by a later one
      with the same id is bound to the position of its own column name. */
  lemma {:induction false} SlotIndexMapSpec(slots: seq<SlotDescriptor>, names: seq<string>, i: nat)
    requires i < |slots|
    requires forall j :: i < j < |slots| ==> slots[j].id != slots[i].id
    ensures var m := SlotIndexMap(slots, names);
      slots[i].id in m && m[slots[i].id] == IndexOf(names, slots[i].colName)
  {
    if i < |slots| - 1 {
      var prefix := slots[..|slots| - 1];
      assert prefix[i] == slots[i];
      SlotIndexMapSpec(prefix, names, i);
    }
  }

  /** After a successful `_init_return_columns`, every query slot finds a
      column of its own name among the scanner columns, which name the chunks
      of a projection. */
  lemma QuerySlotsFindTheirColumns(slots: seq<SlotDescriptor>, schema: TabletSchema, i: nat)
    requires ReturnColumnsStatus(Resolve(slots, schema)) == Ok
    requires i < |Resolve(slots, schema).querySlots|
    ensures var r := Resolve(slots, schema);
      var cols := ScannerColumnsOf(r);
      && ValidIndices(cols, schema)
      && var p := IndexOf(OutputNames(schema, cols), r.querySlots[i].colName);
         0 <= p < |cols| && OutputNames(schema, cols)[p] == r.querySlots[i].colName
  {
    var r := Resolve(slots, schema);
    var cols := ScannerColumnsOf(r);
    var x := QuerySlotColumn(slots, schema, i);
    var q :| 0 <= q < |cols| && cols[q] == x;
    FindsName(cols, schema, r.querySlots[i].colName, q);
  }

  /** After a successful `_init_return_columns` the scanner columns are columns of the schema. */
  lemma ScannerColumnsValid(slots: seq<SlotDescriptor>, schema: TabletSchema)
    requires ReturnColumnsStatus(Resolve(slots, schema)) == Ok
    ensures ValidIndices(ScannerColumnsOf(Resolve(slots, schema)), schema)
  {
    ScannerColumnsSorted(slots, schema);
  }

  /** Every query slot finds a column of its own name in the chunks the
      scanner hands out, whether a projection names them after the scanner
      columns or the reader names them after its own columns. */
  lemma QuerySlotsFindOutputColumns(skipAggregation: bool, slots: seq<SlotDescriptor>, schema: TabletSchema, i: nat)
    requires KeysFirst(schema)
    requires ReturnColumnsStatus(Resolve(slots, schema)) == Ok
    requires i < |Resolve(slots, schema).querySlots|
    ensures var r := Resolve(slots, schema);
      var sc := ScannerColumnsOf(r);
      var cols := OutputColumns(ReaderColumns(skipAggregation, sc, schema), sc);
      && ValidIndices(cols, schema)
      && var p := IndexOf(OutputNames(schema, cols), r.querySlots[i].colName);
         0 <= p < |cols| && OutputNames(schema, cols)[p] == r.querySlots[i].colName
  {
    var r := Resolve(slots, schema);
    var sc := ScannerColumnsOf(r);
    var rc := ReaderColumns(skipAggregation, sc, schema);
    var x := QuerySlotColumn(slots, schema, i);
    ReaderColumnsLayout(skipAggregation, sc, schema);
    ReaderColumnsValid(skipAggregation, sc, schema);
    var j :| 0 <= j < |sc| && sc[j] == x;
    if |rc| == |sc| {
      assert sc[j] in rc;
      var q :| 0 <= q < |rc| && rc[q] == x;
      FindsName(rc, schema, r.querySlots[i].colName, q);
    } else {
      FindsName(sc, schema, r.querySlots[i].colName, j);
    }
  }

  /** The column a query slot resolved to is a scanner column of the slot's name. */
  lemma QuerySlotColumn(slots: seq<SlotDescriptor>, schema: TabletSchema, i: nat) returns (x: int)
    requires ReturnColumnsStatus(Resolve(slots, schema)) == Ok
    requires i < |Resolve(slots, schema).querySlots|
    ensures var r := Resolve(slots, schema);
      && ValidIndices(ScannerColumnsOf(r), schema) && Sorted(ScannerColumnsOf(r))
      && x in ScannerColumnsOf(r) && 0 <= x < |schema.columns|
      && schema.columns[x].name == r.querySlots[i].colName
  {
    var r := Resolve(slots, schema);
    ScannerColumnsSorted(slots, schema);
    ResolveMaterialized(slots, schema);
    FieldIndexFound(schema, r.querySlots[i].colName);
    x := r.columns[i];
    var p := MultisetIndex(x, r.columns, ScannerColumnsOf(r));
  }

  /** A column of the wanted name among `cols` makes the name lookup succeed. */
  lemma FindsName(cols: seq<int>, schema: TabletSchema, name: string, q: nat)
    requires q < |cols| && 0 <= cols[q] < |schema.columns| && schema.columns[cols[q]].name == name
    ensures var p := IndexOf(OutputNames(schema, cols), name);
      0 <= p < |cols| && OutputNames(schema, cols)[p] == name
  {
    assert OutputNames(schema, cols)[q] == name;
  }

  /** A value of `s` occurs at some position of any permutation `t` of `s`. */
  lemma MultisetIndex(x: int, s: seq<int>, t: seq<int>) returns (p: nat)
    requires x in s && multiset(s) == multiset(t)
    ensures p < |t| && t[p] == x
  {
    assert x in multiset(t);
    p :| 0 <= p < |t| && t[p] == x;
  }

  // ---------------------------------------------------------------------------
  // The status of `init`
  // ---------------------------------------------------------------------------

  /** The statuses the tablet reader's script gives, in the order the scanner
      asks for them, and the batches it yields before its final status. */
  datatype ReaderScript = ReaderScript(encodedSchemaStatus: Status, prepareStatus: Status, openStatus: Status,
                                       batches: seq<ReaderBatch>, endStatus: Status)

  /** The status `init` returns: the first failing step wins. */
  function InitStatus(tablet: Option<TabletSchema>, slots: seq<SlotDescriptor>, script: ReaderScript): (r: Status)
    ensures r == Ok ==> tablet.Some? && script.encodedSchemaStatus == Ok && script.prepareStatus == Ok
  {
    if tablet.None? then InternalError(TabletNotFound)
    else if ReturnColumnsStatus(Resolve(slots, tablet.value)) != Ok then ReturnColumnsStatus(Resolve(slots, tablet.value))
    else if script.encodedSchemaStatus != Ok then script.encodedSchemaStatus
    else if script.prepareStatus != Ok then InternalError(ReaderPrepareFailed(script.prepareStatus))
    else Ok
  }

  /** `init` succeeds exactly when the tablet is found, every materialized slot
      resolves, some slot is materialized, and the reader accepts the encoded
      schema and prepares. */
  lemma InitOk(tablet: Option<TabletSchema>, slots: seq<SlotDescriptor>, script: ReaderScript)
    ensures InitStatus(tablet, slots, script) == Ok <==>
      && tablet.Some?
      && AllResolve(slots, tablet.value)
      && (exists i :: 0 <= i < |slots| && slots[i].materialized)
      && script.encodedSchemaStatus == Ok
      && script.prepareStatus == Ok
  {
    if tablet.Some? {
      ReturnColumnsOk(slots, tablet.value);
    }
  }

  // ---------------------------------------------------------------------------
  // The chunk and the tablet reader
  // ---------------------------------------------------------------------------

  /** The chunk `get_chunk` fills: its rows, the names of its fields, and the
      slot-id-to-column map. */
  class Chunk {
    var rows: seq<Row>
    var fieldNames: seq<string>
    var slotToIndex: map<int, int>

    constructor ()
      ensures rows == [] && fieldNames == [] && slotToIndex == map[]
    {
      rows := [];
      fieldNames := [];
      slotToIndex := map[];
    }

    /** Keeps, in place and in order, the rows `keep` selects. */
    method FilterRows(keep: Row -> bool)
      modifies this`rows
      ensures rows == Filter(old(rows), keep)
    {
      rows := Filter(rows, keep);
    }
  }

  /** The tablet reader behind the projection iterator, as a script: the
      statuses it gives and the batches it yields, with the statistics it
      accumulates until the scanner collects them. */
  class TabletReader {
    const columns: seq<int>
    const outputNames: seq<string>
    const script: ReaderScript
    var batches: seq<ReaderBatch>
    var encodedDicts: Option<map<int, DictId>>
    var prepared: bool
    var openCalls: nat
    var closed: bool
    var compressedBytesRead: nat
    var rawRowsRead: nat

    constructor (columns: seq<int>, outputNames: seq<string>, script: ReaderScript)
      ensures this.columns == columns && this.outputNames == outputNames && this.script == script
      ensures batches == script.batches && encodedDicts == None && !prepared && openCalls == 0 && !closed
      ensures compressedBytesRead == 0 && rawRowsRead == 0
    {
      this.columns := columns;
      this.outputNames := outputNames;
      this.script := script;
      batches := script.batches;
      encodedDicts := None;
      prepared := false;
      openCalls := 0;
      closed := false;
      compressedBytesRead := 0;
      rawRowsRead := 0;
    }

    method InitEncodedSchema(dicts: map<int, DictId>) returns (status: Status)
      modifies this`encodedDicts
      ensures status == script.encodedSchemaStatus && encodedDicts == Some(dicts)
    {
      encodedDicts := Some(dicts);
      status := script.encodedSchemaStatus;
    }

    method Prepare() returns (status: Status)
      modifies this`prepared
      ensures status == script.prepareStatus && prepared
    {
      prepared := true;
      status := script.prepareStatus;
    }

    method Open() returns (status: Status)
      modifies this`openCalls
      ensures status == script.openStatus && openCalls == old(openCalls) + 1
    {
      openCalls := openCalls + 1;
      status := script.openStatus;
    }

    method Close()
      modifies this`closed
      ensures closed
    {
      closed := true;
    }

    /** Fills `chunk` with the next batch, or gives the final status and leaves
        `chunk` alone. */
    method GetNext(chunk: Chunk) returns (status: Status)
      modifies this`batches, this`compressedBytesRead, this`rawRowsRead, chunk`rows, chunk`fieldNames
      ensures old(batches) == [] ==>
        status == script.endStatus && batches == [] && unchanged(chunk)
        && compressedBytesRead == old(compressedBytesRead) && rawRowsRead == old(rawRowsRead)
      ensures old(batches) != [] ==>
        && status == Ok && batches == old(batches)[1..]
        && chunk.rows == old(batches)[0].rows && chunk.fieldNames == outputNames
        && compressedBytesRead == old(compressedBytesRead) + old(batches)[0].compressedBytes
        && rawRowsRead == old(rawRowsRead) + old(batches)[0].rawRows
    {
      if batches == [] {
        status := script.endStatus;
      } else {
        var batch := batches[0];
        chunk.rows := batch.rows;
        chunk.fieldNames := outputNames;
        compressedBytesRead := compressedBytesRead + batch.compressedBytes;
        rawRowsRead := rawRowsRead + batch.rawRows;
        batches := batches[1..];
        status := Ok;
      }
    }
  }

  // ---------------------------------------------------------------------------
  // The scanner
  // ---------------------------------------------------------------------------

  datatype ReaderParams = ReaderParams(skipAggregation: bool, needAggFinalize: bool,
                                       predicates: seq<ColumnPredicate>, keys: KeyRanges,
                                       globalDictMaps: map<int, DictId>)

  const DefaultReaderParams := ReaderParams(false, false, [], NoKeyRanges, map[])

  /** What is left of a pull after `k` batches: the same outcome, `k` batches fewer. */
  ghost predicate PullRest(rest: seq<ReaderBatch>, endStatus: Status, current: seq<Row>, c: Conditions,
                           whole: Pulled, k: nat)
  {
    var q := Pull(rest, endStatus, current, c);
    q.status == whole.status && q.rows == whole.rows && q.consumed + k == whole.consumed
  }

  /** The statistics of one more batch. */
  lemma ReadOneMore(batches: seq<ReaderBatch>, k: nat)
    requires k < |batches|
    ensures BytesRead(batches[..k + 1]) == BytesRead(batches[..k]) + batches[k].compressedBytes
    ensures RowsRead(batches[..k + 1]) == RowsRead(batches[..k]) + batches[k].rawRows
  {
    assert batches[..k + 1] == batches[..k] + [batches[k]];
    ReadAppend(batches[..k], [batches[k]]);
  }

  /** A pull that has batches left and whose next batch keeps no row goes on
      with the remaining batches, one more consumed. */
  lemma PullRestNext(rest: seq<ReaderBatch>, endStatus: Status, current: seq<Row>, c: Conditions,
                     whole: Pulled, k: nat)
    requires rest != [] && PullRest(rest, endStatus, current, c, whole, k)
    requires Survivors(rest[0].rows, c) == []
    ensures PullRest(rest[1..], endStatus, [], c, whole, k + 1)
  {
  }

  /** A pull whose next batch keeps a row ends with it. */
  lemma PullRestFound(rest: seq<ReaderBatch>, endStatus: Status, current: seq<Row>, c: Conditions,
                      whole: Pulled, k: nat)
    requires rest != [] && PullRest(rest, endStatus, current, c, whole, k)
    requires Survivors(rest[0].rows, c) != []
    ensures whole == Pulled(Ok, Survivors(rest[0].rows, c), k + 1)
  {
  }

  /** A pull with no batches left ends with the reader's final status. */
  lemma PullRestEnd(endStatus: Status, current: seq<Row>, c: Conditions, whole: Pulled, k: nat)
    requires PullRest([], endStatus, current, c, whole, k)
    ensures whole == Pulled(endStatus, current, k)
  {
  }

  class TabletScanner {
    var skipAggregation: bool
    var needAggFinalize: bool
    var conjuncts: seq<ExprContext>
    var conjunctsClosed: bool
    var evalPredicate: (ColumnPredicate, Row) -> bool
    var evalConjunct: (ExprContext, Row) -> bool
    var tablet: Option<TabletSchema>
    var scannerColumns: seq<int>
    var querySlots: seq<SlotDescriptor>
    var readerColumns: seq<int>
    /** The residual predicates, evaluated on each chunk. */
    var predicates: seq<ColumnPredicate>
    var predicateFreePool: seq<ColumnPredicate>
    var params: ReaderParams
    var reader: TabletReader?
    /** Whether chunks come through a projection of the reader's columns. */
    var projected: bool
    var isOpen: bool
    var isClosed: bool
    var hasUpdateCounter: bool
    var compressedBytesRead: nat
    var rawRowsRead: nat
    /** How many times the reader statistics were flushed into the totals. */
    ghost var counterFlushes: nat

    /** The reader was opened at most once, and only when `isOpen` is set; the
        counters were flushed at most once; a closed scanner has flushed them and
        let go of its reader. */
    ghost predicate Valid()
      reads this`counterFlushes, this`hasUpdateCounter, this`reader, this`isOpen, this`isClosed, reader
    {
      && counterFlushes == (if hasUpdateCounter then 1 else 0)
      && (reader != null ==> reader.openCalls == (if isOpen then 1 else 0) && reader.script.endStatus != Ok)
      && (isClosed ==> hasUpdateCounter && reader == null)
    }

    ghost predicate Unused()
      reads this
    {
      && scannerColumns == [] && querySlots == [] && readerColumns == []
      && predicates == [] && predicateFreePool == []
      && params == DefaultReaderParams && reader == null
      && !isOpen && !isClosed && !hasUpdateCounter
    }

    function Conds(): Conditions
      reads this
    {
      Conditions(predicates, evalPredicate, conjuncts, evalConjunct)
    }

    constructor ()
      ensures Valid() && Unused()
      ensures compressedBytesRead == 0 && rawRowsRead == 0
    {
      skipAggregation, needAggFinalize := false, false;
      conjuncts, conjunctsClosed := [], false;
      evalPredicate := (p, r) => true;
      evalConjunct := (c, r) => true;
      tablet := None;
      scannerColumns, querySlots, readerColumns := [], [], [];
      predicates, predicateFreePool := [], [];
      params := DefaultReaderParams;
      reader := null;
      projected := false;
      isOpen, isClosed, hasUpdateCounter := false, false, false;
      compressedBytesRead, rawRowsRead := 0, 0;
      counterFlushes := 0;
    }

    /** `_init_return_columns`: resolves the materialized slots, in order,
        stopping at the first name the tablet lacks, then sorts the indices. */
    method InitReturnColumns(schema: TabletSchema, slots: seq<SlotDescriptor>) returns (status: Status)
      requires scannerColumns == [] && querySlots == []
      modifies this`scannerColumns, this`querySlots
      ensures var r := Resolve(slots, schema);
        status == ReturnColumnsStatus(r) && scannerColumns == ScannerColumnsOf(r) && querySlots == r.querySlots
    {
      for i := 0 to |slots|
        invariant Resolve(slots[..i], schema) == Resolution(scannerColumns, querySlots, None)
      {
        assert slots[..i + 1][..i] == slots[..i];
        var slot := slots[i];
        if !slot.materialized {
          continue;
        }
        var index := FieldIndex(schema, slot.colName);
        if index < 0 {
          ResolveStopsAtFailure(slots, schema, i + 1);
          status := InternalError(InvalidFieldName(slot.colName));
          return;
        }
        scannerColumns := scannerColumns + [index];
        querySlots := querySlots + [slot];
      }
      assert slots[..|slots|] == slots;
      scannerColumns := Sort(scannerColumns);
      if scannerColumns == [] {
        status := InternalError(NoMaterializedSlot);
        return;
      }
      status := Ok;
    }

    /** `_init_global_dicts`: field index to global dictionary, for the
        materialized slots that have one. */
    method InitGlobalDicts(schema: TabletSchema, slots: seq<SlotDescriptor>, runtimeDicts: map<int, DictId>)
      modifies this`params
      ensures params == old(params).(globalDictMaps := GlobalDicts(slots, schema, runtimeDicts))
    {
      var globalDict: map<int, DictId> := map[];
      for i := 0 to |slots|
        invariant globalDict == GlobalDicts(slots[..i], schema, runtimeDicts)
      {
        assert slots[..i + 1][..i] == slots[..i];
        var slot := slots[i];
        if !slot.materialized {
          continue;
        }
        if slot.id in runtimeDicts {
          var index := FieldIndex(schema, slot.colName);
          if index !in globalDict {
            globalDict := globalDict[index := runtimeDicts[slot.id]];
          }
        }
      }
      assert slots[..|slots|] == slots;
      params := params.(globalDictMaps := globalDict);
    }

    /** `_init_reader_params`: the aggregation flags, the predicate split, the
        key ranges and the reader columns. */
    method InitReaderParams(schema: TabletSchema, parsed: seq<ColumnPredicate>, canPushdown: ColumnPredicate -> bool,
                            keyRanges: seq<OlapScanRange>)
      requires predicates == [] && predicateFreePool == [] && readerColumns == []
      requires params.predicates == [] && params.keys == NoKeyRanges
      modifies this`params, this`predicates, this`predicateFreePool, this`readerColumns
      ensures params == old(params).(skipAggregation := skipAggregation, needAggFinalize := needAggFinalize,
                                     predicates := Filter(parsed, canPushdown),
                                     keys := TranslateRanges(keyRanges, NoKeyRanges))
      ensures predicates == Filter(parsed, Not(canPushdown)) && predicateFreePool == parsed
      ensures readerColumns == ReaderColumns(skipAggregation, scannerColumns, schema)
    {
      params := params.(skipAggregation := skipAggregation, needAggFinalize := needAggFinalize);
      SplitPredicates(parsed, canPushdown);
      InitKeyRanges(keyRanges);
      InitReaderColumns(schema);
    }

    /** The predicate part of `_init_reader_params`: every parsed predicate
        goes to the free pool and to the pushed or the residual list. */
    method SplitPredicates(parsed: seq<ColumnPredicate>, canPushdown: ColumnPredicate -> bool)
      requires predicates == [] && predicateFreePool == [] && params.predicates == []
      modifies this`params, this`predicates, this`predicateFreePool
      ensures params == old(params).(predicates := Filter(parsed, canPushdown))
      ensures predicates == Filter(parsed, Not(canPushdown)) && predicateFreePool == parsed
    {
      var readerParams := params;
      var pool, pushed, residual := predicateFreePool, readerParams.predicates, predicates;
      for i := 0 to |parsed|
        invariant pool == parsed[..i]
        invariant pushed == Filter(parsed[..i], canPushdown)
        invariant residual == Filter(parsed[..i], Not(canPushdown))
      {
        FilterStep(parsed, i, canPushdown);
        FilterStep(parsed, i, Not(canPushdown));
        var p := parsed[i];
        pool := pool + [p];
        if canPushdown(p) {
          pushed := pushed + [p];
        } else {
          residual := residual + [p];
        }
      }
      assert parsed[..|parsed|] == parsed;
      predicateFreePool, predicates := pool, residual;
      params := readerParams.(predicates := pushed);
    }

    /** The range part of `_init_reader_params`. */
    method InitKeyRanges(keyRanges: seq<OlapScanRange>)
      requires params.keys == NoKeyRanges
      modifies this`params
      ensures params == old(params).(keys := TranslateRanges(keyRanges, NoKeyRanges))
    {
      for i := 0 to |keyRanges|
        invariant params == old(params).(keys := TranslateRanges(keyRanges[..i], NoKeyRanges))
      {
        assert keyRanges[..i + 1][..i] == keyRanges[..i];
        var keyRange := keyRanges[i];
        if |keyRange.beginScanRange| == 1 && keyRange.beginScanRange[0] == NegativeInfinity {
          continue;
        }
        var keys := params.keys;
        keys := keys.(range := Some(if keyRange.beginInclude then "ge" else "gt"));
        keys := keys.(endRange := Some(if keyRange.endInclude then "le" else "lt"));
        keys := keys.(startKey := keys.startKey + [keyRange.beginScanRange]);
        keys := keys.(endKey := keys.endKey + [keyRange.endScanRange]);
        params := params.(keys := keys);
      }
      assert keyRanges[..|keyRanges|] == keyRanges;
    }

    /** The return-columns part of `_init_reader_params`. */
    method InitReaderColumns(schema: TabletSchema)
      requires readerColumns == []
      modifies this`readerColumns
      ensures readerColumns == ReaderColumns(skipAggregation, scannerColumns, schema)
    {
      if skipAggregation {
        readerColumns := scannerColumns;
      } else {
        for i := 0 to schema.numKeyColumns
          invariant readerColumns == KeyPrefix(i)
        {
          readerColumns := readerColumns + [i];
        }
        ghost var keys := readerColumns;
        for i := 0 to |scannerColumns|
          invariant readerColumns == keys + Filter(scannerColumns[..i], ValueOf(schema))
        {
          assert scannerColumns[..i + 1][..i] == scannerColumns[..i];
          var index := scannerColumns[i];
          if !IsKeyColumn(schema, index) {
            readerColumns := readerColumns + [index];
          }
        }
        assert scannerColumns[..|scannerColumns|] == scannerColumns;
      }
    }

    /** `init`: clones the conjuncts, looks the tablet up, then runs the three
        init steps, creates the reader (behind a projection when the reader
        columns differ from the scanner columns), hands it the global
        dictionaries and prepares it; the first failing step decides the status. */
    method Init(skipAggregationParam: bool, needAggFinalizeParam: bool, conjunctCtxs: seq<ExprContext>,
                evalPredicateParam: (ColumnPredicate, Row) -> bool, evalConjunctParam: (ExprContext, Row) -> bool,
                tabletLookup: Option<TabletSchema>, slots: seq<SlotDescriptor>, runtimeDicts: map<int, DictId>,
                parsed: seq<ColumnPredicate>, canPushdown: ColumnPredicate -> bool, keyRanges: seq<OlapScanRange>,
                script: ReaderScript) returns (status: Status)
      requires Valid() && Unused()
      requires script.endStatus != Ok
      modifies this`skipAggregation, this`needAggFinalize, this`conjuncts, this`evalPredicate, this`evalConjunct
      modifies this`tablet, this`scannerColumns, this`querySlots, this`readerColumns, this`predicates
      modifies this`predicateFreePool, this`params, this`reader, this`projected
      ensures Valid() && !isOpen && !isClosed
      ensures status == InitStatus(tabletLookup, slots, script)
      ensures skipAggregation == skipAggregationParam && needAggFinalize == needAggFinalizeParam
      ensures conjuncts == conjunctCtxs
      ensures evalPredicate == evalPredicateParam && evalConjunct == evalConjunctParam
      ensures tablet == tabletLookup
      ensures tabletLookup.None? ==>
        && scannerColumns == [] && querySlots == []
        && readerColumns == [] && predicates == [] && predicateFreePool == []
        && params == DefaultReaderParams && reader == null && projected == old(projected)
      ensures tabletLookup.Some? ==>
        SetUp(tabletLookup.value, slots, runtimeDicts, parsed, canPushdown, keyRanges, script)
    {
      Configure(skipAggregationParam, needAggFinalizeParam, conjunctCtxs, evalPredicateParam, evalConjunctParam,
                tabletLookup);
      if tabletLookup.None? {
        status := InternalError(TabletNotFound);
        return;
      }
      status := InitWithTablet(tabletLookup.value, slots, runtimeDicts, parsed, canPushdown, keyRanges, script);
    }

    /** The fields `init` copies from the scan node and the runtime state. */
    method Configure(skipAggregationParam: bool, needAggFinalizeParam: bool, conjunctCtxs: seq<ExprContext>,
                     evalPredicateParam: (ColumnPredicate, Row) -> bool,
                     evalConjunctParam: (ExprContext, Row) -> bool, tabletLookup: Option<TabletSchema>)
      modifies this`skipAggregation, this`needAggFinalize, this`conjuncts, this`evalPredicate, this`evalConjunct
      modifies this`tablet
      ensures skipAggregation == skipAggregationParam && needAggFinalize == needAggFinalizeParam
      ensures conjuncts == conjunctCtxs
      ensures evalPredicate == evalPredicateParam && evalConjunct == evalConjunctParam
      ensures tablet == tabletLookup
    {
      skipAggregation := skipAggregationParam;
      needAggFinalize := needAggFinalizeParam;
      conjuncts := conjunctCtxs;
      evalPredicate := evalPredicateParam;
      evalConjunct := evalConjunctParam;
      tablet := tabletLookup;
    }

    /** The state `init` leaves once the tablet is found: the scanner columns
        and query slots always; on a failed column resolution nothing else;
        otherwise the reader parameters, the residual predicates, the reader
        columns and a fresh, prepared reader. */
    ghost predicate SetUp(schema: TabletSchema, slots: seq<SlotDescriptor>, runtimeDicts: map<int, DictId>,
                          parsed: seq<ColumnPredicate>, canPushdown: ColumnPredicate -> bool,
                          keyRanges: seq<OlapScanRange>, script: ReaderScript)
      reads this, reader
    {
      var r := Resolve(slots, schema);
      && scannerColumns == ScannerColumnsOf(r) && querySlots == r.querySlots
      && (ReturnColumnsStatus(r) != Ok ==>
            && readerColumns == [] && predicates == [] && predicateFreePool == []
            && params == DefaultReaderParams && reader == null)
      && (ReturnColumnsStatus(r) == Ok ==> Prepared(schema, slots, runtimeDicts, parsed, canPushdown, keyRanges, script))
    }

    /** What `init` sets up once the return columns are known: the reader
        parameters, the residual predicates, the reader columns and the reader. */
    ghost predicate Prepared(schema: TabletSchema, slots: seq<SlotDescriptor>, runtimeDicts: map<int, DictId>,
                             parsed: seq<ColumnPredicate>, canPushdown: ColumnPredicate -> bool,
                             keyRanges: seq<OlapScanRange>, script: ReaderScript)
      reads this, reader
    {
      ParamsSet(schema, slots, runtimeDicts, parsed, canPushdown, keyRanges) && ReaderCreated(schema, script)
    }

    /** The part of `Prepared` that does not involve the reader. */
    ghost predicate ParamsSet(schema: TabletSchema, slots: seq<SlotDescriptor>, runtimeDicts: map<int, DictId>,
                              parsed: seq<ColumnPredicate>, canPushdown: ColumnPredicate -> bool,
                              keyRanges: seq<OlapScanRange>)
      reads this`params, this`skipAggregation, this`needAggFinalize, this`predicates, this`predicateFreePool
      reads this`readerColumns, this`scannerColumns
    {
      && params == ReaderParams(skipAggregation, needAggFinalize, Filter(parsed, canPushdown),
                                TranslateRanges(keyRanges, NoKeyRanges), GlobalDicts(slots, schema, runtimeDicts))
      && predicates == Filter(parsed, Not(canPushdown)) && predicateFreePool == parsed
      && readerColumns == ReaderColumns(skipAggregation, scannerColumns, schema)
      && ValidIndices(scannerColumns, schema)
    }

    /** The part of `init` after the tablet is found. */
    method InitWithTablet(schema: TabletSchema, slots: seq<SlotDescriptor>, runtimeDicts: map<int, DictId>,
                          parsed: seq<ColumnPredicate>, canPushdown: ColumnPredicate -> bool,
                          keyRanges: seq<OlapScanRange>, script: ReaderScript) returns (status: Status)
      requires Unused()
      modifies this`scannerColumns, this`querySlots, this`readerColumns, this`predicates
      modifies this`predicateFreePool, this`params, this`reader, this`projected
      ensures status == InitStatus(Some(schema), slots, script)
      ensures SetUp(schema, slots, runtimeDicts, parsed, canPushdown, keyRanges, script)
      ensures reader == null ==> projected == old(projected)
      ensures reader != null ==> fresh(reader) && reader.openCalls == 0 && reader.script == script
    {
      status := InitReturnColumns(schema, slots);
      if status != Ok {
        return;
      }
      status := InitReader(schema, slots, runtimeDicts, parsed, canPushdown, keyRanges, script);
    }

    /** The part of `init` after the return columns are resolved. */
    method InitReader(schema: TabletSchema, slots: seq<SlotDescriptor>, runtimeDicts: map<int, DictId>,
                      parsed: seq<ColumnPredicate>, canPushdown: ColumnPredicate -> bool,
                      keyRanges: seq<OlapScanRange>, script: ReaderScript) returns (status: Status)
      requires ReturnColumnsStatus(Resolve(slots, schema)) == Ok
      requires scannerColumns == ScannerColumnsOf(Resolve(slots, schema))
      requires predicates == [] && predicateFreePool == [] && readerColumns == []
      requires params == DefaultReaderParams
      modifies this`readerColumns, this`predicates, this`predicateFreePool, this`params, this`reader, this`projected
      ensures Prepared(schema, slots, runtimeDicts, parsed, canPushdown, keyRanges, script)
      ensures fresh(reader)
      ensures status == (if script.encodedSchemaStatus != Ok then script.encodedSchemaStatus
                         else if script.prepareStatus != Ok then InternalError(ReaderPrepareFailed(script.prepareStatus))
                         else Ok)
    {
      ScannerColumnsValid(slots, schema);
      InitGlobalDicts(schema, slots, runtimeDicts);
      InitReaderParams(schema, parsed, canPushdown, keyRanges);
      assert ParamsSet(schema, slots, runtimeDicts, parsed, canPushdown, keyRanges);
      status := CreateReader(schema, script);
    }

    /** The reader `init` creates and prepares: over the reader columns, giving
        chunks named after the scanner columns when a projection is built and
        after the reader columns when the reader is its own projection, with
        the global dictionaries. */
    ghost predicate ReaderCreated(schema: TabletSchema, script: ReaderScript)
      reads this, reader
    {
      && reader != null
      && reader.columns == readerColumns
      && reader.outputNames == OutputNames(schema, OutputColumns(readerColumns, scannerColumns))
      && reader.script == script && reader.batches == script.batches
      && reader.encodedDicts == Some(params.globalDictMaps)
      && reader.prepared == (script.encodedSchemaStatus == Ok)
      && reader.openCalls == 0 && !reader.closed
      && reader.compressedBytesRead == 0 && reader.rawRowsRead == 0
      && projected == (|readerColumns| != |scannerColumns|)
    }

    /** The reader part of `init`: a projection is needed when the reader reads
        more columns than the scanner returns. */
    method CreateReader(schema: TabletSchema, script: ReaderScript) returns (status: Status)
      modifies this`reader, this`projected
      ensures reader != null && fresh(reader) && ReaderCreated(schema, script)
      ensures status == (if script.encodedSchemaStatus != Ok then script.encodedSchemaStatus
                         else if script.prepareStatus != Ok then InternalError(ReaderPrepareFailed(script.prepareStatus))
                         else Ok)
    {
      reader := new TabletReader(readerColumns, OutputNames(schema, OutputColumns(readerColumns, scannerColumns)), script);
      projected := |readerColumns| != |scannerColumns|;
      status := reader.InitEncodedSchema(params.globalDictMaps);
      if status != Ok {
        return;
      }
      var st := reader.Prepare();
      if st != Ok {
        status := InternalError(ReaderPrepareFailed(st));
        return;
      }
      status := Ok;
    }

    /** `open`: opens the reader the first time only; `isOpen` is set before the
        attempt, so a later call returns OK even when the first one failed. */
    method Open() returns (status: Status)
      requires Valid() && reader != null
      modifies this`isOpen, reader`openCalls
      ensures Valid() && isOpen
      ensures old(isOpen) ==> status == Ok && reader.openCalls == old(reader.openCalls)
      ensures !old(isOpen) ==>
        && reader.openCalls == 1
        && status == (if reader.script.openStatus == Ok then Ok
                      else InternalError(ReaderOpenFailed(reader.script.openStatus)))
    {
      if isOpen {
        return Ok;
      }
      isOpen := true;
      var st := reader.Open();
      if st != Ok {
        st := InternalError(ReaderOpenFailed(st));
      }
      status := st;
    }

    /** `update_counter`: adds the reader's statistics to the totals, once. */
    method UpdateCounter()
      requires Valid() && (hasUpdateCounter || reader != null)
      modifies this`hasUpdateCounter, this`compressedBytesRead, this`rawRowsRead, this`counterFlushes
      ensures Valid() && hasUpdateCounter
      ensures old(hasUpdateCounter) ==>
        compressedBytesRead == old(compressedBytesRead) && rawRowsRead == old(rawRowsRead)
        && counterFlushes == old(counterFlushes)
      ensures !old(hasUpdateCounter) ==>
        && compressedBytesRead == old(compressedBytesRead) + reader.compressedBytesRead
        && rawRowsRead == old(rawRowsRead) + reader.rawRowsRead
        && counterFlushes == old(counterFlushes) + 1
    {
      if hasUpdateCounter {
        return;
      }
      compressedBytesRead := compressedBytesRead + reader.compressedBytesRead;
      rawRowsRead := rawRowsRead + reader.rawRowsRead;
      hasUpdateCounter := true;
      counterFlushes := counterFlushes + 1;
    }

    /** `close`: closes the reader, flushes the counters, releases the reader,
        the predicate pool and the conjuncts; a second call does nothing. */
    method Close() returns (status: Status)
      requires Valid() && (isClosed || reader != null)
      modifies this`isClosed, this`reader, this`predicateFreePool, this`conjunctsClosed
      modifies this`hasUpdateCounter, this`compressedBytesRead, this`rawRowsRead, this`counterFlushes
      modifies reader
      ensures Valid() && status == Ok && isClosed
      ensures old(isClosed) ==> unchanged(this)
      ensures !old(isClosed) ==>
        && old(reader).closed && reader == null
        && predicateFreePool == [] && conjunctsClosed && hasUpdateCounter
        && (old(hasUpdateCounter) ==>
              compressedBytesRead == old(compressedBytesRead) && rawRowsRead == old(rawRowsRead)
              && counterFlushes == old(counterFlushes))
        && (!old(hasUpdateCounter) ==>
              compressedBytesRead == old(compressedBytesRead) + old(reader.compressedBytesRead)
              && rawRowsRead == old(rawRowsRead) + old(reader.rawRowsRead)
              && counterFlushes == old(counterFlushes) + 1)
    {
      if isClosed {
        return Ok;
      }
      reader.Close();
      UpdateCounter();
      reader := null;
      predicateFreePool := [];
      conjunctsClosed := true;
      isClosed := true;
      status := Ok;
    }

    /** `_update_realtime_counter`: moves the reader's pending statistics into
        the totals, so totals plus pending stay the same. */
    method UpdateRealtimeCounter()
      requires reader != null
      modifies this`compressedBytesRead, this`rawRowsRead, reader`compressedBytesRead, reader`rawRowsRead
      ensures compressedBytesRead == old(compressedBytesRead) + old(reader.compressedBytesRead)
      ensures rawRowsRead == old(rawRowsRead) + old(reader.rawRowsRead)
      ensures reader.compressedBytesRead == 0 && reader.rawRowsRead == 0
    {
      compressedBytesRead := compressedBytesRead + reader.compressedBytesRead;
      reader.compressedBytesRead := 0;
      rawRowsRead := rawRowsRead + reader.rawRowsRead;
      reader.rawRowsRead := 0;
    }

    /** The slot loop of `get_chunk`. */
    method BindSlots(chunk: Chunk)
      modifies chunk`slotToIndex
      ensures chunk.slotToIndex == old(chunk.slotToIndex) + SlotIndexMap(querySlots, chunk.fieldNames)
    {
      ghost var start := chunk.slotToIndex;
      for i := 0 to |querySlots|
        invariant chunk.slotToIndex == start + SlotIndexMap(querySlots[..i], chunk.fieldNames)
      {
        var slot := querySlots[i];
        var index := IndexOf(chunk.fieldNames, slot.colName);
        BindOneMore(start, querySlots, chunk.fieldNames, i);
        chunk.slotToIndex := chunk.slotToIndex[slot.id := index];
      }
      assert querySlots[..|querySlots|] == querySlots;
    }

    /** One pass of the `get_chunk` loop: the next chunk from the reader, its
        slots bound, then filtered by the residual predicates and the conjuncts. */
    method ReadFiltered(chunk: Chunk) returns (status: Status)
      requires reader != null && reader.script.endStatus != Ok
      modifies reader`batches, reader`compressedBytesRead, reader`rawRowsRead, chunk
      ensures old(reader.batches) == [] ==>
        && status == reader.script.endStatus && reader.batches == [] && unchanged(chunk)
        && reader.compressedBytesRead == old(reader.compressedBytesRead)
        && reader.rawRowsRead == old(reader.rawRowsRead)
      ensures old(reader.batches) != [] ==>
        var batch := old(reader.batches)[0];
        && status == Ok && reader.batches == old(reader.batches)[1..]
        && chunk.rows == Survivors(batch.rows, Conds())
        && chunk.fieldNames == reader.outputNames
        && chunk.slotToIndex == old(chunk.slotToIndex) + SlotIndexMap(querySlots, reader.outputNames)
        && reader.compressedBytesRead == old(reader.compressedBytesRead) + batch.compressedBytes
        && reader.rawRowsRead == old(reader.rawRowsRead) + batch.rawRows
    {
      status := reader.GetNext(chunk);
      if status != Ok {
        return;
      }
      BindSlots(chunk);
      if predicates != [] {
        chunk.FilterRows(Passes(predicates, evalPredicate));
      }
      if conjuncts != [] {
        chunk.FilterRows(Passes(conjuncts, evalConjunct));
      }
    }

    /** The do-while loop of `get_chunk`: reads until a chunk keeps a row or the
        reader gives a status that is not OK. */
    method PullChunks(chunk: Chunk) returns (status: Status)
      requires reader != null && reader.script.endStatus != Ok
      modifies reader`batches, reader`compressedBytesRead, reader`rawRowsRead, chunk
      ensures var p := Pull(old(reader.batches), reader.script.endStatus, old(chunk.rows), Conds());
        var used := old(reader.batches)[..p.consumed];
        && status == p.status && chunk.rows == p.rows
        && reader.batches == old(reader.batches)[p.consumed..]
        && chunk.fieldNames == (if p.consumed == 0 then old(chunk.fieldNames) else reader.outputNames)
        && chunk.slotToIndex == (if p.consumed == 0 then old(chunk.slotToIndex)
                                 else old(chunk.slotToIndex) + SlotIndexMap(querySlots, reader.outputNames))
        && reader.compressedBytesRead == old(reader.compressedBytesRead) + BytesRead(used)
        && reader.rawRowsRead == old(reader.rawRowsRead) + RowsRead(used)
    {
      ghost var batches0 := reader.batches;
      ghost var c := Conds();
      ghost var p0 := Pull(batches0, reader.script.endStatus, chunk.rows, c);
      ghost var k: nat := 0;
      ghost var bytes0, raw0 := reader.compressedBytesRead, reader.rawRowsRead;
      ghost var names0, map0 := chunk.fieldNames, chunk.slotToIndex;
      ghost var bound := SlotIndexMap(querySlots, reader.outputNames);
      while true
        invariant c == Conds()
        invariant k <= |batches0| && reader.batches == batches0[k..]
        invariant PullRest(reader.batches, reader.script.endStatus, chunk.rows, c, p0, k)
        invariant reader.compressedBytesRead == bytes0 + BytesRead(batches0[..k])
        invariant reader.rawRowsRead == raw0 + RowsRead(batches0[..k])
        invariant k == 0 ==> chunk.fieldNames == names0 && chunk.slotToIndex == map0
        invariant k > 0 ==> chunk.fieldNames == reader.outputNames
                            && chunk.slotToIndex == map0 + bound
        decreases |reader.batches|
      {
        ghost var rest, current := reader.batches, chunk.rows;
        status := ReadFiltered(chunk);
        if status != Ok {
          PullRestEnd(reader.script.endStatus, current, c, p0, k);
          return;
        }
        ReadOneMore(batches0, k);
        assert batches0[k + 1..] == rest[1..];
        if k > 0 {
          SlotBindingIdempotent(map0, querySlots, reader.outputNames);
        }
        assert chunk.slotToIndex == map0 + bound;
        if chunk.rows != [] {
          PullRestFound(rest, reader.script.endStatus, current, c, p0, k);
          k := k + 1;
          return;
        }
        PullRestNext(rest, reader.script.endStatus, current, c, p0, k);
        k := k + 1;
      }
    }

    /** `get_chunk`: unless cancelled, pulls chunks as `Pull` describes and,
        on success, moves the reader's statistics into the totals. */
    method GetChunk(cancelled: bool, chunk: Chunk) returns (status: Status)
      requires Valid() && reader != null
      modifies this`compressedBytesRead, this`rawRowsRead
      modifies reader`batches, reader`compressedBytesRead, reader`rawRowsRead, chunk
      ensures Valid()
      ensures cancelled ==> status == Cancelled && unchanged(this) && unchanged(reader) && unchanged(chunk)
      ensures !cancelled ==>
        var p := Pull(old(reader.batches), reader.script.endStatus, old(chunk.rows), Conds());
        var used := old(reader.batches)[..p.consumed];
        && status == p.status && chunk.rows == p.rows
        && reader.batches == old(reader.batches)[p.consumed..]
        && chunk.fieldNames == (if p.consumed == 0 then old(chunk.fieldNames) else reader.outputNames)
        && chunk.slotToIndex == (if p.consumed == 0 then old(chunk.slotToIndex)
                                 else old(chunk.slotToIndex) + SlotIndexMap(querySlots, reader.outputNames))
        && (status == Ok ==>
              && compressedBytesRead == old(compressedBytesRead) + old(reader.compressedBytesRead) + BytesRead(used)
              && rawRowsRead == old(rawRowsRead) + old(reader.rawRowsRead) + RowsRead(used)
              && reader.compressedBytesRead == 0 && reader.rawRowsRead == 0)
        && (status != Ok ==>
              && compressedBytesRead == old(compressedBytesRead) && rawRowsRead == old(rawRowsRead)
              && reader.compressedBytesRead == old(reader.compressedBytesRead) + BytesRead(used)
              && reader.rawRowsRead == old(reader.rawRowsRead) + RowsRead(used))
    {
      if cancelled {
        return Cancelled;
      }
      status := PullChunks(chunk);
      if status != Ok {
        return;
      }
      UpdateRealtimeCounter();
    }
  }
}
