/** The ODPS split scanner's row buffering. The scanner pulls Arrow batches
    from a split reader into a FIFO queue, keeping in `size` the number of rows
    it believes are cached, and each `getNext` hands at least
    `min(size, fetchSize)` rows to the off-heap writer, possibly more than
    `fetchSize`. A batch is known here only by its row count; emitting rows
    into the writer (`read(batch, n)`) is recorded as the number `n` it was
    asked to emit. */
module OdpsSplitScanner {
  import opened Sequences

  function Min(a: int, b: int): int {
    if a <= b then a else b
  }

  /** Total row count of a sequence of batches. */
  function Sum(s: seq<nat>): nat {
    if s == [] then 0 else Sum(s[..|s| - 1]) + s[|s| - 1]
  }

  lemma {:induction false} SumAppend(a: seq<nat>, b: seq<nat>)
    ensures Sum(a + b) == Sum(a) + Sum(b)
    decreases |b|
  {
    if b == [] {
      assert a + b == a;
    } else {
      assert (a + b)[..|a + b| - 1] == a + b[..|b| - 1];
      SumAppend(a, b[..|b| - 1]);
    }
  }

  lemma SumCons(x: nat, s: seq<nat>)
    ensures Sum([x] + s) == x + Sum(s)
  {
    SumAppend([x], s);
    assert Sum([x]) == Sum([]) + x;
  }

  // ---------------------------------------------------------------------------
  // The `required_fields` parameter: `String.split(",")`
  // ---------------------------------------------------------------------------

  /** Every piece between separators, empty ones included: one more piece than separators. */
  function SplitAll(s: string, sep: char): (r: seq<string>)
    ensures |r| >= 1
    ensures forall i :: 0 <= i < |r| ==> sep !in r[i]
  {
    if s == [] then [[]]
    else
      var rest := SplitAll(s[1..], sep);
      if s[0] == sep then [[]] + rest
      else [[s[0]] + rest[0]] + rest[1..]
  }

  function Join(pieces: seq<string>, sep: char): string
    requires |pieces| >= 1
  {
    if |pieces| == 1 then pieces[0] else pieces[0] + [sep] + Join(pieces[1..], sep)
  }

  /** Gluing the pieces back with the separator gives the original string. */
  lemma {:induction false} JoinSplitAll(s: string, sep: char)
    ensures Join(SplitAll(s, sep), sep) == s
  {
    if s != [] {
      var rest := SplitAll(s[1..], sep);
      JoinSplitAll(s[1..], sep);
      if s[0] != sep {
        var pieces := [[s[0]] + rest[0]] + rest[1..];
        assert pieces[1..] == rest[1..];
        if |rest| > 1 {
          assert Join(rest, sep) == rest[0] + [sep] + Join(rest[1..], sep);
        }
      } else {
        assert ([[]] + rest)[1..] == rest;
      }
    }
  }

  /** A string with no separator splits into itself. */
  lemma {:induction false} SplitAllNoSeparator(s: string, sep: char)
    requires sep !in s
    ensures SplitAll(s, sep) == [s]
  {
    if s != [] {
      assert s[0] != sep && sep !in s[1..];
      SplitAllNoSeparator(s[1..], sep);
      assert [s[0]] + s[1..] == s;
    }
  }

  function DropTrailingEmpty(p: seq<string>): (r: seq<string>)
    ensures |r| <= |p| && r == p[..|r|]
    ensures forall i :: |r| <= i < |p| ==> p[i] == []
    ensures r == [] || r[|r| - 1] != []
  {
    if p == [] then []
    else if p[|p| - 1] == [] then DropTrailingEmpty(p[..|p| - 1])
    else p
  }

  /** Java's `s.split(String.valueOf(sep))` with the default limit: when the
      separator does not occur the result is the input alone; otherwise it is
      every piece with the trailing empty ones removed. */
  function JavaSplit(s: string, sep: char): (r: seq<string>)
    ensures forall i :: 0 <= i < |r| ==> sep !in r[i]
    ensures sep !in s ==> r == [s]
    ensures sep in s ==> r == [] || r[|r| - 1] != []
  {
    if sep !in s then [s] else DropTrailingEmpty(SplitAll(s, sep))
  }

  /** The split fields are the leading pieces between commas; only empty pieces
      are dropped, from the end; and the pieces glue back into the parameter. */
  lemma JavaSplitPieces(s: string, sep: char)
    ensures var r, all := JavaSplit(s, sep), SplitAll(s, sep);
      |r| <= |all| && r == all[..|r|]
      && (forall i :: |r| <= i < |all| ==> all[i] == [])
      && Join(all, sep) == s
    ensures var r := JavaSplit(s, sep); sep in s ==> r == [] || r[|r| - 1] != []
  {
    JoinSplitAll(s, sep);
    if sep !in s {
      SplitAllNoSeparator(s, sep);
    }
  }

  lemma JavaSplitTwoFields()
    ensures JavaSplit("a,b", ',') == ["a", "b"]
  {
    SplitAllNoSeparator("b", ',');
    assert ",b"[1..] == "b" && ",b"[0] == ',';
    assert SplitAll(",b", ',') == ["", "b"];
    assert "a,b"[1..] == ",b" && "a,b"[0] == 'a';
    assert ['a'] + "" == "a";
    assert SplitAll("a,b", ',') == ["a", "b"];
    assert "a,b"[1] == ',';
  }

  /** Trailing empty fields are dropped, but an empty string gives one empty field. */
  lemma JavaSplitTrailingEmpty()
    ensures JavaSplit("a,,", ',') == ["a"]
    ensures JavaSplit("", ',') == [""]
  {
    assert ","[1..] == [] && ","[0] == ',';
    assert SplitAll(",", ',') == ["", ""];
    assert ",,"[1..] == "," && ",,"[0] == ',';
    assert SplitAll(",,", ',') == ["", "", ""];
    assert "a,,"[1..] == ",," && "a,,"[0] == 'a';
    assert SplitAll("a,,", ',') == [['a'] + ""] + ["", ""];
    assert ['a'] + "" == "a";
    assert SplitAll("a,,", ',') == ["a", "", ""];
    assert "a,,"[1] == ',';
    assert DropTrailingEmpty(["a", "", ""]) == ["a"] by {
      assert ["a", "", ""][..2] == ["a", ""];
      assert ["a", ""][..1] == ["a"];
    }
  }

  function Lookup<C>(m: map<string, C>, name: string): Option<C> {
    if name in m then Some(m[name]) else None
  }

  /** The constructor's loop: for each required field, the table column of that
      name (`Map.get`, so `None` for a name the table lacks) and its converted
      type, at the same index. The conversion itself is a parameter. */
  method AlignRequiredColumns<C, T(0)>(requiredFields: seq<string>, nameColumnMap: map<string, C>,
                                       convert: Option<C> -> T)
    returns (requireColumns: array<Option<C>>, requiredTypes: array<T>)
    ensures requireColumns.Length == |requiredFields| && requiredTypes.Length == |requiredFields|
    ensures forall i :: 0 <= i < |requiredFields| ==>
              requireColumns[i] == Lookup(nameColumnMap, requiredFields[i])
              && requiredTypes[i] == convert(requireColumns[i])
  {
    requireColumns := new Option<C>[|requiredFields|];
    requiredTypes := new T[|requiredFields|];
    for i := 0 to |requiredFields|
      invariant forall k :: 0 <= k < i ==>
                  requireColumns[k] == Lookup(nameColumnMap, requiredFields[k])
                  && requiredTypes[k] == convert(requireColumns[k])
    {
      requireColumns[i] := Lookup(nameColumnMap, requiredFields[i]);
      requiredTypes[i] := convert(requireColumns[i]);
    }
  }

  // ---------------------------------------------------------------------------
  // The fetch loop and the drain loop of `getNext`, as functions
  // ---------------------------------------------------------------------------

  /** The buffered batches, the cached-row counter and the batches the reader has yet to yield. */
  datatype Buffer = Buffer(queue: seq<nat>, size: int, pending: seq<nat>)

  /** The first loop: pull while the reader has more and fewer than `fetchSize` rows are cached. */
  function Fetch(b: Buffer, fetchSize: int): (r: Buffer)
    ensures r.pending == [] || r.size >= fetchSize
    ensures r.queue + r.pending == b.queue + b.pending
    decreases |b.pending|
  {
    if b.pending == [] || b.size >= fetchSize then b
    else
      var x := b.pending[0];
      assert b.pending == [x] + b.pending[1..];
      Fetch(Buffer(b.queue + [x], b.size + x, b.pending[1..]), fetchSize)
  }

  /** Each of `pulled` was pulled while fewer than `fetchSize` rows were counted. */
  ghost predicate PulledBelow(size: int, pulled: seq<nat>, fetchSize: int) {
    forall j :: 0 <= j < |pulled| ==> size + Sum(pulled[..j]) < fetchSize
  }

  lemma PulledBelowCons(size: int, x: nat, rest: seq<nat>, fetchSize: int)
    requires size < fetchSize && PulledBelow(size + x, rest, fetchSize)
    ensures PulledBelow(size, [x] + rest, fetchSize)
  {
    var p := [x] + rest;
    forall j | 0 <= j < |p| ensures size + Sum(p[..j]) < fetchSize {
      if j == 0 {
        assert p[..0] == [];
      } else {
        assert p[..j] == [x] + rest[..j - 1];
        SumCons(x, rest[..j - 1]);
      }
    }
  }

  /** The fetch loop pulled some `n` leading batches of the reader, appended
      them to the queue in the reader's order and grew `size` by their rows; each
      was pulled while fewer than `fetchSize` rows were counted. */
  lemma {:induction false} FetchPulls(b: Buffer, fetchSize: int) returns (n: nat)
    ensures n <= |b.pending|
    ensures Fetch(b, fetchSize) == Buffer(b.queue + b.pending[..n], b.size + Sum(b.pending[..n]), b.pending[n..])
    ensures PulledBelow(b.size, b.pending[..n], fetchSize)
    decreases |b.pending|
  {
    if b.pending == [] || b.size >= fetchSize {
      n := 0;
      assert b.pending[..0] == [] && b.pending[0..] == b.pending;
      assert b.queue + [] == b.queue;
    } else {
      var x, tail := b.pending[0], b.pending[1..];
      var m := FetchPulls(Buffer(b.queue + [x], b.size + x, tail), fetchSize);
      n := m + 1;
      PulledOneMore(b.queue, b.size, b.pending, m, fetchSize);
    }
  }

  /** The step of `FetchPulls`: pulling the first batch, then `m` more, is pulling `m + 1`. */
  lemma PulledOneMore(queue: seq<nat>, size: int, p: seq<nat>, m: nat, fetchSize: int)
    requires m < |p| && size < fetchSize
    requires PulledBelow(size + p[0], p[1..][..m], fetchSize)
    ensures (queue + [p[0]]) + p[1..][..m] == queue + p[..m + 1]
    ensures size + p[0] + Sum(p[1..][..m]) == size + Sum(p[..m + 1])
    ensures p[1..][m..] == p[m + 1..]
    ensures PulledBelow(size, p[..m + 1], fetchSize)
  {
    var pulled := p[1..][..m];
    assert p[..m + 1] == [p[0]] + pulled;
    SumCons(p[0], pulled);
    PulledBelowCons(size, p[0], pulled, fetchSize);
  }

  /** What the drain loop did: the row counts passed to `read`, in order,
      the queue it left, and the final `numRows`. */
  datatype Drained = Drained(emitted: seq<nat>, rest: seq<nat>, numRows: nat)

  /** The second loop, from a running `numRows`. A front batch no larger than
      `shouldRead` is read whole and removed; a larger one is read for
      `shouldRead` rows and stays at the front, which ends the loop. `None` is
      `getFirst` on an empty queue. */
  function Drain(queue: seq<nat>, shouldRead: int, numRows: nat): (r: Option<Drained>)
    ensures r.Some? ==> r.value.numRows == numRows + Sum(r.value.emitted)
    ensures r.Some? ==> r.value.numRows >= shouldRead
    ensures r.Some? && |r.value.emitted| > 0 ==> numRows < shouldRead
    ensures r.Some? && numRows >= shouldRead ==> r.value == Drained([], queue, numRows)
    decreases |queue|
  {
    if numRows >= shouldRead then Some(Drained([], queue, numRows))
    else if queue == [] then None
    else if queue[0] > shouldRead then
      assert Sum([shouldRead as nat]) == shouldRead by {
        assert [shouldRead as nat][..0] == [];
      }
      Some(Drained([shouldRead as nat], queue, numRows + shouldRead as nat))
    else
      match Drain(queue[1..], shouldRead, numRows + queue[0])
      case None => None
      case Some(d) =>
        SumCons(queue[0], d.emitted);
        Some(Drained([queue[0]] + d.emitted, d.rest, d.numRows))
  }

  /** `target` is what is left to do (`d`) after the emits in `done`. */
  ghost predicate DrainedFrom(target: Drained, done: seq<nat>, d: Drained) {
    target == Drained(done + d.emitted, d.rest, d.numRows)
  }

  /** One turn of the drain loop, unfolded. */
  lemma DrainStep(queue: seq<nat>, shouldRead: int, numRows: nat)
    requires numRows < shouldRead && Drain(queue, shouldRead, numRows).Some?
    ensures queue != []
    ensures var d := Drain(queue, shouldRead, numRows).value;
      if queue[0] > shouldRead then
        d == Drained([shouldRead as nat], queue, numRows + shouldRead as nat)
        && Drain(queue, shouldRead, numRows + shouldRead as nat) == Some(Drained([], queue, numRows + shouldRead as nat))
      else
        Drain(queue[1..], shouldRead, numRows + queue[0]).Some?
        && var d' := Drain(queue[1..], shouldRead, numRows + queue[0]).value;
        d == Drained([queue[0]] + d'.emitted, d'.rest, d'.numRows)
  {
  }

  /** Appending one emit to `done` moves it out of the drain still to do. */
  lemma DrainedFromStep(target: Drained, done: seq<nat>, x: nat, d: Drained, d': Drained)
    requires DrainedFrom(target, done, d)
    requires d == Drained([x] + d'.emitted, d'.rest, d'.numRows)
    ensures DrainedFrom(target, done + [x], d')
  {
    assert done + d.emitted == (done + [x]) + d'.emitted;
  }

  /** What is still to drain from `queue`, after the emits in `done`, completes `target`. */
  ghost predicate DrainsTo(target: Drained, done: seq<nat>, queue: seq<nat>, shouldRead: int, numRows: nat) {
    Drain(queue, shouldRead, numRows).Some? && DrainedFrom(target, done, Drain(queue, shouldRead, numRows).value)
  }

  /** One turn of the drain loop keeps `DrainsTo`: a larger front batch gives
      `shouldRead` rows and stays, any other is emitted whole and removed. */
  lemma DrainAdvance(target: Drained, done: seq<nat>, queue: seq<nat>, shouldRead: int, numRows: nat)
    returns (done': seq<nat>, queue': seq<nat>, numRows': nat)
    requires numRows < shouldRead && DrainsTo(target, done, queue, shouldRead, numRows)
    ensures queue != [] && 0 < shouldRead
    ensures queue[0] > shouldRead ==>
      done' == done + [shouldRead as nat] && queue' == queue && numRows' == numRows + shouldRead
    ensures queue[0] <= shouldRead ==>
      done' == done + [queue[0]] && queue' == queue[1..] && numRows' == numRows + queue[0]
    ensures DrainsTo(target, done', queue', shouldRead, numRows')
  {
    DrainStep(queue, shouldRead, numRows);
    var d := Drain(queue, shouldRead, numRows).value;
    if queue[0] > shouldRead {
      done', queue', numRows' := done + [shouldRead as nat], queue, numRows + shouldRead as nat;
      DrainedFromStep(target, done, shouldRead as nat, d, Drained([], queue, numRows'));
    } else {
      done', queue', numRows' := done + [queue[0]], queue[1..], numRows + queue[0];
      DrainedFromStep(target, done, queue[0], d, Drain(queue', shouldRead, numRows').value);
    }
  }

  /** The emits are the first whole batches of the queue, the rest is what
      follows them; each emitted batch was no larger than `shouldRead`, and
      before each emit the running total was still below `shouldRead`. */
  ghost predicate WholeBatches(queue: seq<nat>, emitted: seq<nat>, rest: seq<nat>, shouldRead: int, numRows: nat) {
    && |emitted| <= |queue| && emitted == queue[..|emitted|] && rest == queue[|emitted|..]
    && forall k :: 0 <= k < |emitted| ==> queue[k] <= shouldRead && numRows + Sum(queue[..k]) < shouldRead
  }

  /** The emits are whole batches and then `shouldRead` rows of the next batch,
      which is larger than that and stays at the front of the rest. */
  ghost predicate PartialLast(queue: seq<nat>, emitted: seq<nat>, rest: seq<nat>, shouldRead: int, numRows: nat) {
    var k := |emitted|;
    && 0 <= shouldRead && 0 < k <= |queue|
    && emitted == queue[..k - 1] + [shouldRead as nat] && rest == queue[k - 1..]
    && queue[k - 1] > shouldRead && numRows + Sum(queue[..k - 1]) < shouldRead
  }

  lemma WholeBatchesCons(x: nat, tail: seq<nat>, emitted: seq<nat>, rest: seq<nat>, shouldRead: int, numRows: nat)
    requires WholeBatches(tail, emitted, rest, shouldRead, numRows + x)
    requires x <= shouldRead && numRows < shouldRead
    ensures WholeBatches([x] + tail, [x] + emitted, rest, shouldRead, numRows)
  {
    var k := |emitted|;
    var q := [x] + tail;
    assert q[..k + 1] == [x] + tail[..k];
    assert q[k + 1..] == tail[k..];
    forall j | 0 <= j < k + 1
      ensures q[j] <= shouldRead && numRows + Sum(q[..j]) < shouldRead
    {
      if j == 0 {
        assert q[..0] == [];
      } else {
        assert q[..j] == [x] + tail[..j - 1];
        SumCons(x, tail[..j - 1]);
      }
    }
  }

  lemma PartialLastCons(x: nat, tail: seq<nat>, emitted: seq<nat>, rest: seq<nat>, shouldRead: int, numRows: nat)
    requires PartialLast(tail, emitted, rest, shouldRead, numRows + x)
    ensures PartialLast([x] + tail, [x] + emitted, rest, shouldRead, numRows)
  {
    var k := |emitted|;
    var q := [x] + tail;
    assert q[..k] == [x] + tail[..k - 1];
    assert q[k..] == tail[k - 1..];
    SumCons(x, tail[..k - 1]);
  }

  /** The drain works front to back: every emit but possibly the last takes a
      whole batch off the queue; a last emit of `shouldRead` rows from a larger
      batch leaves that batch at the front. */
  lemma {:induction false} DrainFifo(queue: seq<nat>, shouldRead: int, numRows: nat)
    requires Drain(queue, shouldRead, numRows).Some?
    ensures var d := Drain(queue, shouldRead, numRows).value;
      WholeBatches(queue, d.emitted, d.rest, shouldRead, numRows) || PartialLast(queue, d.emitted, d.rest, shouldRead, numRows)
    decreases |queue|
  {
    var d := Drain(queue, shouldRead, numRows).value;
    if numRows >= shouldRead {
      assert queue[..0] == [] && queue[0..] == queue;
    } else if queue[0] > shouldRead {
      assert queue[..0] == [];
      assert [shouldRead as nat] == queue[..0] + [shouldRead as nat];
      assert queue[0..] == queue;
    } else {
      var tail := queue[1..];
      DrainFifo(tail, shouldRead, numRows + queue[0]);
      var d' := Drain(tail, shouldRead, numRows + queue[0]).value;
      assert d.emitted == [queue[0]] + d'.emitted && d.rest == d'.rest;
      assert queue == [queue[0]] + tail;
      if WholeBatches(tail, d'.emitted, d'.rest, shouldRead, numRows + queue[0]) {
        WholeBatchesCons(queue[0], tail, d'.emitted, d'.rest, shouldRead, numRows);
      } else {
        PartialLastCons(queue[0], tail, d'.emitted, d'.rest, shouldRead, numRows);
      }
    }
  }

  /** The state `getNext` keeps between calls. Either the counter matches the
      queued rows, or the front batch is one a previous call read only in part:
      it is larger than anything later calls will ask of it, so it is never removed. */
  ghost predicate BufferInvariant(queue: seq<nat>, size: int, pending: seq<nat>, fetchSize: int) {
    && 0 <= size <= Sum(queue)
    && (size < Sum(queue) ==>
          |queue| > 0 && queue[0] > (if pending != [] then fetchSize else Min(size, fetchSize)))
  }

  lemma {:induction false} FetchKeepsInvariant(b: Buffer, fetchSize: int)
    requires BufferInvariant(b.queue, b.size, b.pending, fetchSize)
    ensures var r := Fetch(b, fetchSize); BufferInvariant(r.queue, r.size, r.pending, fetchSize)
    decreases |b.pending|
  {
    if b.pending != [] && b.size < fetchSize {
      var x := b.pending[0];
      var next := Buffer(b.queue + [x], b.size + x, b.pending[1..]);
      SumAppend(b.queue, [x]);
      assert Sum([x]) == x by {
        assert [x][..0] == [];
      }
      if |b.queue| > 0 {
        assert next.queue[0] == b.queue[0];
      }
      FetchKeepsInvariant(next, fetchSize);
    }
  }

  /** The drain never runs out of queue when at least `shouldRead` rows are queued. */
  lemma {:induction false} DrainDefined(queue: seq<nat>, shouldRead: int, numRows: nat)
    requires numRows + Sum(queue) >= shouldRead
    ensures Drain(queue, shouldRead, numRows).Some?
    decreases |queue|
  {
    if numRows < shouldRead && queue != [] && queue[0] <= shouldRead {
      assert queue == [queue[0]] + queue[1..];
      SumCons(queue[0], queue[1..]);
      DrainDefined(queue[1..], shouldRead, numRows + queue[0]);
    }
  }

  lemma SumSingle(x: nat)
    ensures Sum([x]) == x
  {
    assert [x][..0] == [];
  }

  /** The drain case that reads `k` whole batches. */
  lemma DrainWholeKeepsInvariant(queue: seq<nat>, size: int, pending: seq<nat>, fetchSize: int, k: nat)
    requires BufferInvariant(queue, size, pending, fetchSize)
    requires pending == [] || size >= fetchSize
    requires k <= |queue|
    requires Drain(queue, Min(size, fetchSize), 0) == Some(Drained(queue[..k], queue[k..], Sum(queue[..k])))
    ensures Sum(queue[..k]) <= size
    ensures BufferInvariant(queue[k..], size - Sum(queue[..k]), pending, fetchSize)
  {
    assert queue == queue[..k] + queue[k..];
    SumAppend(queue[..k], queue[k..]);
  }

  /** The drain case that reads `k - 1` whole batches and then part of the next. */
  lemma DrainPartialKeepsInvariant(queue: seq<nat>, size: int, pending: seq<nat>, fetchSize: int, k: nat)
    requires BufferInvariant(queue, size, pending, fetchSize)
    requires pending == [] || size >= fetchSize
    requires 0 < k <= |queue| && queue[k - 1] > Min(size, fetchSize)
    requires Sum(queue[..k - 1]) < Min(size, fetchSize)
    ensures Sum(queue[..k - 1]) + Min(size, fetchSize) <= size
    ensures BufferInvariant(queue[k - 1..], size - Sum(queue[..k - 1]) - Min(size, fetchSize), pending, fetchSize)
  {
    var sr := Min(size, fetchSize);
    assert queue == queue[..k - 1] + queue[k - 1..];
    SumAppend(queue[..k - 1], queue[k - 1..]);
    assert queue[k - 1..] == [queue[k - 1]] + queue[k..];
    SumCons(queue[k - 1], queue[k..]);
    if size < Sum(queue) && k > 1 {
      assert queue[..k - 1] == [queue[0]] + queue[1..k - 1];
      SumCons(queue[0], queue[1..k - 1]);
    }
  }

  /** After the fetch loop, the drain succeeds, takes no more rows than are
      counted, and leaves a state that satisfies the invariant again. */
  lemma DrainKeepsInvariant(queue: seq<nat>, size: int, pending: seq<nat>, fetchSize: int)
    requires BufferInvariant(queue, size, pending, fetchSize)
    requires pending == [] || size >= fetchSize
    ensures var d := Drain(queue, Min(size, fetchSize), 0);
      d.Some? && d.value.numRows <= size
      && BufferInvariant(d.value.rest, size - d.value.numRows, pending, fetchSize)
  {
    var sr := Min(size, fetchSize);
    DrainDefined(queue, sr, 0);
    var d := Drain(queue, sr, 0).value;
    DrainFifo(queue, sr, 0);
    var k := |d.emitted|;
    if WholeBatches(queue, d.emitted, d.rest, sr, 0) {
      DrainWholeKeepsInvariant(queue, size, pending, fetchSize, k);
    } else {
      SumAppend(queue[..k - 1], [sr as nat]);
      SumSingle(sr as nat);
      DrainPartialKeepsInvariant(queue, size, pending, fetchSize, k);
    }
  }

  /** One whole `getNext` keeps the invariant and never calls `getFirst` on an empty queue. */
  lemma GetNextKeepsInvariant(b: Buffer, fetchSize: int)
    requires BufferInvariant(b.queue, b.size, b.pending, fetchSize)
    ensures var f := Fetch(b, fetchSize);
      var d := Drain(f.queue, Min(f.size, fetchSize), 0);
      d.Some? && d.value.numRows <= f.size
      && BufferInvariant(d.value.rest, f.size - d.value.numRows, f.pending, fetchSize)
  {
    FetchKeepsInvariant(b, fetchSize);
    var f := Fetch(b, fetchSize);
    DrainKeepsInvariant(f.queue, f.size, f.pending, fetchSize);
  }

  /** With the reader exhausted and nothing cached, `getNext` returns 0 and changes nothing. */
  lemma ExhaustedReturnsZero(queue: seq<nat>, fetchSize: int)
    ensures var f := Fetch(Buffer(queue, 0, []), fetchSize);
      f == Buffer(queue, 0, [])
      && Drain(f.queue, Min(f.size, fetchSize), 0) == Some(Drained([], queue, 0))
  {
  }

  /** The drain can hand over more than `fetchSize` rows: with batches of 1 and
      10 rows queued and a fetch size of 8, it reads the 1-row batch whole, then
      8 rows of the 10-row batch, 9 rows in all; the counter drops to 2 while the
      10-row batch stays queued. */
  lemma DrainOvershootsFetchSize()
    ensures var b := Fetch(Buffer([], 0, [1, 10]), 8);
      b == Buffer([1, 10], 11, [])
      && Drain(b.queue, Min(b.size, 8), 0) == Some(Drained([1, 8], [10], 9))
  {
    assert [1, 10][1..] == [10] && [10][1..] == [];
    assert Fetch(Buffer([1, 10], 11, []), 8) == Buffer([1, 10], 11, []);
    assert Fetch(Buffer([1], 1, [10]), 8) == Buffer([1, 10], 11, []);
    assert Fetch(Buffer([], 0, [1, 10]), 8) == Buffer([1, 10], 11, []);
    assert Drain([10], 8, 1) == Some(Drained([8], [10], 9));
    assert [1] + [8] == [1, 8];
    assert Drain([1, 10], 8, 0) == Some(Drained([1, 8], [10], 9));
  }

  /** A batch the drain has read only in part is never removed: while the
      counter is below the queued rows, every later call reads `shouldRead`
      rows of that same front batch and leaves the queue as it was. */
  lemma StrandedBatchStays(queue: seq<nat>, size: int, pending: seq<nat>, fetchSize: int)
    requires BufferInvariant(queue, size, pending, fetchSize)
    requires pending == [] || size >= fetchSize
    requires size < Sum(queue) && 0 < Min(size, fetchSize)
    ensures var sr := Min(size, fetchSize) as nat;
      Drain(queue, sr, 0) == Some(Drained([sr], queue, sr))
  {
  }

  /** A 10-row batch with a fetch size of 8: the first call reads 8 rows of
      it, the second 2 rows, and from then on the counter is 0 while the batch
      is still queued, so the third call hands over nothing. */
  lemma DrainStrandsBatch()
    ensures Fetch(Buffer([], 0, [10]), 8) == Buffer([10], 10, [])
    ensures Drain([10], 8, 0) == Some(Drained([8], [10], 8))
    ensures Fetch(Buffer([10], 2, []), 8) == Buffer([10], 2, [])
    ensures Drain([10], 2, 0) == Some(Drained([2], [10], 2))
    ensures Fetch(Buffer([10], 0, []), 8) == Buffer([10], 0, [])
    ensures Drain([10], 0, 0) == Some(Drained([], [10], 0))
  {
    assert [10][1..] == [];
    assert Fetch(Buffer([10], 10, []), 8) == Buffer([10], 10, []);
  }

  /** The same batch with the intended drain: 8 rows, then the remaining 2,
      after which the batch has left the queue. */
  lemma DrainIntendedSplitsBatch()
    ensures DrainIntended([10], 8, 0) == Drained([8], [2], 8)
    ensures DrainIntended([2], 2, 0) == Drained([2], [], 2)
  {
    assert [10][1..] == [] && [2][1..] == [];
    assert Sum([10]) == 10 && Sum([2]) == 2 by {
      SumSingle(10);
      SumSingle(2);
    }
    assert [(10 - 8) as nat] + [] == [2];
  }

  /** The drain as evidently intended: take from the front batch only what is
      still missing, and keep the unread remainder of a batch at the front. */
  function DrainIntended(queue: seq<nat>, shouldRead: int, numRows: nat): (r: Drained)
    requires numRows <= shouldRead <= numRows + Sum(queue)
    ensures r.numRows == shouldRead
    ensures Sum(r.emitted) == shouldRead - numRows
    ensures Sum(r.rest) == Sum(queue) - (shouldRead - numRows)
    decreases |queue|
  {
    if numRows == shouldRead then Drained([], queue, numRows)
    else
      assert queue != [];
      assert queue == [queue[0]] + queue[1..];
      SumCons(queue[0], queue[1..]);
      var want := shouldRead - numRows;
      if queue[0] > want then
        var left: seq<nat> := [(queue[0] - want) as nat] + queue[1..];
        SumCons(queue[0] - want, queue[1..]);
        assert Sum([want as nat]) == want by {
          assert [want as nat][..0] == [];
        }
        Drained([want as nat], left, shouldRead)
      else
        var d := DrainIntended(queue[1..], shouldRead, numRows + queue[0]);
        SumCons(queue[0], d.emitted);
        Drained([queue[0]] + d.emitted, d.rest, d.numRows)
  }

  /** With the intended drain the counter always equals the queued rows and
      each call returns exactly `min(size, fetchSize)` rows. */
  lemma DrainIntendedExact(queue: seq<nat>, fetchSize: int)
    requires fetchSize >= 0
    ensures var sr := Min(Sum(queue), fetchSize);
      var d := DrainIntended(queue, sr, 0);
      d.numRows == sr && d.numRows <= fetchSize && Sum(d.rest) == Sum(queue) - d.numRows
  {
  }

  // ---------------------------------------------------------------------------
  // The reader and the scanner
  // ---------------------------------------------------------------------------

  /** The Arrow split reader: the row counts of the batches it has yet to yield. */
  class SplitReader {
    var batches: seq<nat>

    constructor (batches: seq<nat>)
      ensures this.batches == batches
    {
      this.batches := batches;
    }

    predicate HasNext()
      reads this
    {
      |batches| > 0
    }

    method Get() returns (rowCount: nat)
      requires HasNext()
      modifies this
      ensures rowCount == old(batches)[0] && batches == old(batches)[1..]
    {
      rowCount := batches[0];
      batches := batches[1..];
    }
  }

  class SplitScanner<C, T(0)> {
    const fetchSize: int
    const requiredFields: seq<string>
    const requireColumns: array<Option<C>>
    const requiredTypes: array<T>
    const reader: SplitReader
    var size: int
    var queue: seq<nat>

    ghost predicate Valid()
      reads this, reader
    {
      BufferInvariant(queue, size, reader.batches, fetchSize)
    }

    /** The parameters the constructor reads from its map, already looked up:
        `required_fields`, the table's columns by name and the reader's batches. */
    constructor (fetchSize: int, requiredFieldsParam: string, nameColumnMap: map<string, C>,
                 convert: Option<C> -> T, batches: seq<nat>)
      ensures Valid()
      ensures this.fetchSize == fetchSize
      ensures requiredFields == JavaSplit(requiredFieldsParam, ',')
      ensures requireColumns.Length == |requiredFields| && requiredTypes.Length == |requiredFields|
      ensures forall i :: 0 <= i < |requiredFields| ==>
                requireColumns[i] == Lookup(nameColumnMap, requiredFields[i])
                && requiredTypes[i] == convert(requireColumns[i])
      ensures fresh(reader) && reader.batches == batches
      ensures size == 0 && queue == []
    {
      this.fetchSize := fetchSize;
      var fields := JavaSplit(requiredFieldsParam, ',');
      this.requiredFields := fields;
      var columns, types := AlignRequiredColumns(fields, nameColumnMap, convert);
      this.requireColumns := columns;
      this.requiredTypes := types;
      this.reader := new SplitReader(batches);
      size := 0;
      queue := [];
    }

    /** Buffers batches until `fetchSize` rows are cached or the reader is done,
        then hands rows to the writer from the front of the queue; `emitted` lists
        the row counts passed to `read`, in order. */
    method GetNext() returns (numRows: int, emitted: seq<nat>)
      requires Valid()
      modifies this, reader
      ensures Valid()
      ensures var f := Fetch(Buffer(old(queue), old(size), old(reader.batches)), fetchSize);
        var d := Drain(f.queue, Min(f.size, fetchSize), 0);
        && d.Some?
        && reader.batches == f.pending
        && numRows == d.value.numRows && emitted == d.value.emitted
        && queue == d.value.rest && size == f.size - numRows
    {
      GetNextKeepsInvariant(Buffer(queue, size, reader.batches), fetchSize);
      FetchBatches();
      var shouldRead := Min(size, fetchSize);
      numRows, emitted := DrainQueue(shouldRead);
      size := size - numRows;
    }

    /** The first loop of `getNext`. */
    method FetchBatches()
      modifies this, reader
      ensures Buffer(queue, size, reader.batches) == Fetch(Buffer(old(queue), old(size), old(reader.batches)), fetchSize)
    {
      ghost var start := Buffer(queue, size, reader.batches);
      while reader.HasNext()
        invariant Fetch(Buffer(queue, size, reader.batches), fetchSize) == Fetch(start, fetchSize)
        decreases |reader.batches|
      {
        if size >= fetchSize {
          break;
        }
        var fetchRowCount := reader.Get();
        queue := queue + [fetchRowCount];
        size := size + fetchRowCount;
      }
    }

    /** The second loop of `getNext`: reads from the front of the queue until
        `shouldRead` rows have been handed over. */
    method DrainQueue(shouldRead: int) returns (numRows: nat, emitted: seq<nat>)
      requires Drain(queue, shouldRead, 0).Some?
      modifies this`queue
      ensures Drain(old(queue), shouldRead, 0) == Some(Drained(emitted, queue, numRows))
    {
      var q := queue;
      ghost var target := Drain(q, shouldRead, 0).value;
      numRows, emitted := 0, [];
      assert [] + target.emitted == target.emitted;
      while numRows < shouldRead
        invariant DrainsTo(target, emitted, q, shouldRead, numRows)
        decreases |q|, shouldRead - numRows
      {
        ghost var emitted', q', numRows' := DrainAdvance(target, emitted, q, shouldRead, numRows);
        var rowCount := q[0];
        if rowCount > shouldRead {
          emitted := emitted + [shouldRead as nat];
          numRows := numRows + shouldRead as nat;
        } else {
          emitted := emitted + [rowCount];
          numRows := numRows + rowCount;
          q := q[1..];
        }
        assert emitted == emitted' && q == q' && numRows == numRows';
      }
      assert emitted + [] == emitted;
      queue := q;
    }
  }
}
