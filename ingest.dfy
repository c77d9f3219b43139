/**
 * The two passes of create_index: `setup_store` counts the decoded lines and
 * reserves that capacity, then `main` numbers the decoded lines with
 * `enumerate` and applies the record rule to each, adding the accepted
 * vectors under their ordinal, and finally saves the index.
 */
module Ingest {
  import opened Wrappers
  import opened Flags
  import opened Records
  import opened Lines
  import opened VectorIndex

  // ---------------------------------------------------------------------
  // The specification of the ingestion pass

  /** The index contents the record rule produces from the decoded lines `d`: key = ordinal in `d`. */
  function Entries<E>(d: seq<string>, decode: string -> Option<seq<E>>): (m: map<nat, seq<E>>)
    ensures forall k :: k in m ==> k < |d|
    ensures |m| <= |d|
  {
    if |d| == 0 then map[]
    else
      var prior := Entries(d[..|d| - 1], decode);
      match Classify(d[|d| - 1], decode)
      case Inserted(v) => prior[|d| - 1 := v]
      case _ => prior
  }

  /** The number of diagnostics printed for the decoded lines `d`: one per parse failure. */
  function Diagnostics<E>(d: seq<string>, decode: string -> Option<seq<E>>): (n: nat)
    ensures n <= |d|
  {
    if |d| == 0 then 0
    else Diagnostics(d[..|d| - 1], decode) + if Classify(d[|d| - 1], decode).ParseFailure? then 1 else 0
  }

  /** The number of lines of `d` dropped without a word because their vector has the wrong length. */
  function SilentDrops<E>(d: seq<string>, decode: string -> Option<seq<E>>): (n: nat)
    ensures n <= |d|
  {
    if |d| == 0 then 0
    else SilentDrops(d[..|d| - 1], decode) + if Classify(d[|d| - 1], decode).WrongLength? then 1 else 0
  }

  /** The ordinal of the first line of `d` with too few fields, or `|d|` when there is none. */
  function FirstShort<E>(d: seq<string>, decode: string -> Option<seq<E>>): (p: nat)
    ensures p <= |d|
    ensures forall j :: 0 <= j < p ==> !Classify(d[j], decode).TooFewFields?
    ensures p < |d| ==> Classify(d[p], decode).TooFewFields?
  {
    if |d| == 0 then 0
    else if Classify(d[0], decode).TooFewFields? then 0
    else 1 + FirstShort(d[1..], decode)
  }

  /** A line that is not short moves the first short line past it. */
  lemma FirstShortAfter<E>(d: seq<string>, decode: string -> Option<seq<E>>, a: nat)
    requires a <= FirstShort(d, decode) && a < |d|
    requires !Classify(d[a], decode).TooFewFields?
    ensures a + 1 <= FirstShort(d, decode)
  {
  }

  /** Every decoded line under its ordinal: present exactly when the record rule inserts it, with its vector. */
  lemma {:induction false} EntriesAt<E>(d: seq<string>, decode: string -> Option<seq<E>>, k: nat)
    ensures k in Entries(d, decode) <==> k < |d| && Classify(d[k], decode).Inserted?
    ensures k in Entries(d, decode) ==> Entries(d, decode)[k] == Classify(d[k], decode).vector
  {
    if |d| > 0 {
      var init := d[..|d| - 1];
      EntriesAt(init, decode, k);
      if k < |init| {
        assert init[k] == d[k];
      }
    }
  }

  /**
   * Every decoded line ends in exactly one of three ways when none is short:
   * added, reported, or silently dropped. So the number of adds is at most
   * the precount, and equal to it exactly when nothing is reported or dropped.
   */
  lemma {:induction false} Accounting<E>(d: seq<string>, decode: string -> Option<seq<E>>)
    requires forall j :: 0 <= j < |d| ==> !Classify(d[j], decode).TooFewFields?
    ensures |Entries(d, decode)| + Diagnostics(d, decode) + SilentDrops(d, decode) == |d|
  {
    if |d| > 0 {
      var init := d[..|d| - 1];
      forall j | 0 <= j < |init| ensures !Classify(init[j], decode).TooFewFields? {
        assert init[j] == d[j];
      }
      Accounting(init, decode);
      assert |d| - 1 !in Entries(init, decode);
    }
  }

  /**
   * One more decoded line: a parse failure or a wrong length never adds an
   * entry, a parse failure prints exactly one diagnostic, an accepted line
   * adds its vector under its ordinal and prints nothing.
   */
  lemma ExtendByOne<E>(d: seq<string>, decode: string -> Option<seq<E>>, a: nat)
    requires a < |d|
    ensures Classify(d[a], decode).ParseFailure? ==>
      Entries(d[..a + 1], decode) == Entries(d[..a], decode) &&
      Diagnostics(d[..a + 1], decode) == Diagnostics(d[..a], decode) + 1
    ensures Classify(d[a], decode).WrongLength? ==>
      Entries(d[..a + 1], decode) == Entries(d[..a], decode) &&
      Diagnostics(d[..a + 1], decode) == Diagnostics(d[..a], decode)
    ensures Classify(d[a], decode).Inserted? ==>
      Entries(d[..a + 1], decode) == Entries(d[..a], decode)[a := Classify(d[a], decode).vector] &&
      Diagnostics(d[..a + 1], decode) == Diagnostics(d[..a], decode)
  {
    assert d[..a + 1][..a] == d[..a];
  }

  /** `columns` are the ';'-free columns of a line with an embedding column. */
  predicate WellFormedColumns(columns: seq<string>)
  {
    |columns| > EmbeddingField && forall i :: 0 <= i < |columns| ==> Delimiter !in columns[i]
  }

  /**
   * Three decoded lines, each glued from well-formed columns: field 4 of
   * line 0 decodes to `v0`, that of line 1 does not decode, that of line 2
   * decodes to a vector whose length is not 192. Line 0 is kept under key 0
   * only when `v0` has 192 values (a two-element vector is dropped whatever
   * `--vector-length` says), line 1 prints the one diagnostic and line 2 is
   * dropped without a word.
   */
  lemma ThreeLineRun<E>(decode: string -> Option<seq<E>>, c0: seq<string>, c1: seq<string>, c2: seq<string>, v0: seq<E>)
    requires WellFormedColumns(c0) && WellFormedColumns(c1) && WellFormedColumns(c2)
    requires decode(c0[EmbeddingField]) == Some(v0)
    requires decode(c1[EmbeddingField]) == None
    requires decode(c2[EmbeddingField]).Some? && |decode(c2[EmbeddingField]).value| != AcceptedLength
    ensures var d := [Join(c0, Delimiter), Join(c1, Delimiter), Join(c2, Delimiter)];
      && Entries(d, decode) == (if |v0| == AcceptedLength then map[0 := v0] else map[])
      && Diagnostics(d, decode) == 1
      && SilentDrops(d, decode) == (if |v0| == AcceptedLength then 1 else 2)
  {
    var l0, l1, l2 := Join(c0, Delimiter), Join(c1, Delimiter), Join(c2, Delimiter);
    ClassifyColumns(c0, decode);
    ClassifyColumns(c1, decode);
    ClassifyColumns(c2, decode);
    var o0 := Classify(l0, decode);
    assert o0 == if |v0| == AcceptedLength then Inserted(v0) else WrongLength(|v0|);
    assert Classify(l1, decode) == ParseFailure;
    assert Classify(l2, decode).WrongLength?;
    var d := [l0, l1, l2];
    assert d[..1] == [l0] && [l0][..0] == [];
    assert d[..2] == [l0, l1] && [l0, l1][..1] == [l0];
    assert d[..3] == d;
    assert Entries([l0], decode) == if o0.Inserted? then map[0 := v0] else map[];
    assert Entries([l0, l1], decode) == Entries([l0], decode);
    assert Diagnostics([l0, l1], decode) == 1;
    assert SilentDrops([l0], decode) == if o0.Inserted? then 0 else 1;
    assert SilentDrops([l0, l1], decode) == SilentDrops([l0], decode);
  }

  // ---------------------------------------------------------------------
  // Order independence

  /** The index contents after the workers add the lines in the order `schedule` (ordinals into `d`). */
  function AddInOrder<E>(d: seq<string>, decode: string -> Option<seq<E>>, schedule: seq<nat>): (m: map<nat, seq<E>>)
    ensures forall k :: k in m ==> k in schedule && k < |d|
  {
    if |schedule| == 0 then map[]
    else
      var prior := AddInOrder(d, decode, schedule[..|schedule| - 1]);
      var k := schedule[|schedule| - 1];
      if k < |d| && Classify(d[k], decode).Inserted? then prior[k := Classify(d[k], decode).vector] else prior
  }

  lemma {:induction false} AddInOrderAt<E>(d: seq<string>, decode: string -> Option<seq<E>>, schedule: seq<nat>, k: nat)
    ensures k in AddInOrder(d, decode, schedule) <==> k in schedule && k < |d| && Classify(d[k], decode).Inserted?
    ensures k in AddInOrder(d, decode, schedule) ==> AddInOrder(d, decode, schedule)[k] == Classify(d[k], decode).vector
  {
    if |schedule| > 0 {
      var init := schedule[..|schedule| - 1];
      AddInOrderAt(d, decode, init, k);
      assert schedule == init + [schedule[|schedule| - 1]];
    }
  }

  /**
   * Whatever order the workers pick, as long as every ordinal is dispatched,
   * the index ends up with the same entries as the sequential run: the key
   * of a line is fixed by `enumerate` before dispatch.
   */
  lemma ScheduleIndependent<E>(d: seq<string>, decode: string -> Option<seq<E>>, schedule: seq<nat>)
    requires forall k :: 0 <= k < |d| ==> k in schedule
    ensures AddInOrder(d, decode, schedule) == Entries(d, decode)
  {
    var a, b := AddInOrder(d, decode, schedule), Entries(d, decode);
    forall k: nat ensures (k in a <==> k in b) && (k in a ==> a[k] == b[k]) {
      AddInOrderAt(d, decode, schedule, k);
      EntriesAt(d, decode, k);
    }
    assert a.Keys == b.Keys;
  }

  // ---------------------------------------------------------------------
  // The ingestion pass

  /**
   * `log` lists the keys of `m` once each, in increasing order, all below
   * `bound`: the shape of the `add` log after the first `bound` lines.
   */
  ghost predicate KeyLog<E>(log: seq<nat>, m: map<nat, seq<E>>, bound: nat)
  {
    && (forall x, y :: 0 <= x < y < |log| ==> log[x] < log[y])
    && (forall x :: 0 <= x < |log| ==> log[x] < bound)
    && |log| <= bound
    && (forall k :: k in log <==> k in m)
    && |log| == |m|
  }

  /** Handling line `a` without an `add` keeps the log and the map. */
  lemma KeyLogSkip<E>(log: seq<nat>, m: map<nat, seq<E>>, a: nat)
    requires KeyLog(log, m, a)
    ensures KeyLog(log, m, a + 1)
  {
  }

  /** Handling line `a` with an `add` appends key `a` to the log and to the map. */
  lemma KeyLogAdd<E>(log: seq<nat>, m: map<nat, seq<E>>, a: nat, v: seq<E>)
    requires KeyLog(log, m, a)
    ensures KeyLog(log + [a], m[a := v], a + 1)
  {
    var log' := log + [a];
    assert a !in m;
    forall k ensures k in log' <==> k in m[a := v] {
      assert k in log' <==> k in log || k == a;
    }
  }

  /**
   * The state of the second pass after the first `a` decoded lines, none of
   * them short: the index holds their entries, the diagnostics count their
   * parse failures, and the `add` log lists the entry keys in order.
   */
  ghost predicate Progress<E>(d: seq<string>, decode: string -> Option<seq<E>>, a: nat,
                              entries: map<nat, seq<E>>, diagnostics: nat, log: seq<nat>)
  {
    && a <= FirstShort(d, decode)
    && entries == Entries(d[..a], decode)
    && diagnostics == Diagnostics(d[..a], decode)
    && KeyLog(log, entries, a)
  }

  /** Handling one more line that is not short keeps `Progress`. */
  lemma ProgressStep<E>(d: seq<string>, decode: string -> Option<seq<E>>, a: nat,
                        entries: map<nat, seq<E>>, diagnostics: nat, log: seq<nat>)
    requires Progress(d, decode, a, entries, diagnostics, log)
    requires a < |d| && !Classify(d[a], decode).TooFewFields?
    ensures var o := Classify(d[a], decode);
      Progress(d, decode, a + 1,
               if o.Inserted? then entries[a := o.vector] else entries,
               diagnostics + if o.ParseFailure? then 1 else 0,
               if o.Inserted? then log + [a] else log)
  {
    var o := Classify(d[a], decode);
    ExtendByOne(d, decode, a);
    FirstShortAfter(d, decode, a);
    if o.Inserted? {
      KeyLogAdd(log, entries, a, o.vector);
    } else {
      KeyLogSkip(log, entries, a);
    }
  }

  /**
   * The closure run for the decoded line `line` numbered `key`: apply the
   * record rule and add the vector when it is accepted. The caller prints
   * the diagnostic of a parse failure and panics on a short line.
   */
  method IngestRecord<E>(ix: Index<E>, key: nat, line: string, decode: string -> Option<seq<E>>)
    returns (outcome: RecordOutcome<E>)
    modifies ix
    ensures outcome == Classify(line, decode)
    ensures ix.entries == if outcome.Inserted? then old(ix.entries)[key := outcome.vector] else old(ix.entries)
    ensures ix.addLog == if outcome.Inserted? then old(ix.addLog) + [key] else old(ix.addLog)
    ensures ix.capacity == old(ix.capacity) && ix.saved == old(ix.saved)
  {
    outcome := Classify(line, decode);
    if outcome.Inserted? {
      ix.Add(key, outcome.vector);
    }
  }

  /**
   * The body of the second pass once the file is open: `enumerate` numbers
   * the decoded lines `d` and each is handed to the closure. A line with too
   * few fields panics the run; `panic` then holds its ordinal and nothing
   * after it is processed. `addedKeys` is the index's log of the keys
   * passed to `Index::add`, in call order.
   */
  method IngestDecoded<E>(ix: Index<E>, d: seq<string>, decode: string -> Option<seq<E>>)
    returns (diagnostics: nat, panic: Option<nat>, ghost addedKeys: seq<nat>)
    requires ix.entries == map[] && ix.addLog == []
    modifies ix
    ensures var p := FirstShort(d, decode);
      && (panic.Some? <==> p < |d|)
      && (panic.Some? ==> panic.value == p)
      && ix.entries == Entries(d[..p], decode)
      && diagnostics == Diagnostics(d[..p], decode)
    ensures forall i, j :: 0 <= i < j < |addedKeys| ==> addedKeys[i] < addedKeys[j]
    ensures forall i :: 0 <= i < |addedKeys| ==> addedKeys[i] < |d|
    ensures |addedKeys| <= |d|
    ensures forall k :: k in addedKeys <==> k in ix.entries
    ensures |addedKeys| == |ix.entries|
    ensures ix.addLog == addedKeys
    ensures ix.capacity == old(ix.capacity) && ix.saved == old(ix.saved)
  {
    diagnostics, panic := 0, None;
    for a := 0 to |d|
      invariant Progress(d, decode, a, ix.entries, diagnostics, ix.addLog)
      invariant panic == None
      invariant ix.capacity == old(ix.capacity) && ix.saved == old(ix.saved)
    {
      ghost var entries0, log0 := ix.entries, ix.addLog;
      var outcome := IngestRecord(ix, a, d[a], decode);
      if outcome.TooFewFields? {
        panic, addedKeys := Some(a), ix.addLog;
        return;
      }
      ProgressStep(d, decode, a, entries0, diagnostics, log0);
      if outcome.ParseFailure? {
        diagnostics := diagnostics + 1;
      }
    }
    addedKeys := ix.addLog;
    assert d[..|d|] == d;
  }

  /** The second pass of `main`: nothing happens when the file cannot be opened. */
  method IngestLines<E>(ix: Index<E>, file: Option<RawLines>, decode: string -> Option<seq<E>>)
    returns (diagnostics: nat, panic: Option<nat>, ghost addedKeys: seq<nat>)
    requires ix.entries == map[] && ix.addLog == []
    modifies ix
    ensures var d := Decoded(file); var p := FirstShort(d, decode);
      && (panic.Some? <==> p < |d|)
      && (panic.Some? ==> panic.value == p)
      && ix.entries == Entries(d[..p], decode)
      && diagnostics == Diagnostics(d[..p], decode)
    ensures forall i, j :: 0 <= i < j < |addedKeys| ==> addedKeys[i] < addedKeys[j]
    ensures forall i :: 0 <= i < |addedKeys| ==> addedKeys[i] < |Decoded(file)|
    ensures |addedKeys| <= |Decoded(file)|
    ensures forall k :: k in addedKeys <==> k in ix.entries
    ensures |addedKeys| == |ix.entries|
    ensures ix.addLog == addedKeys
    ensures ix.capacity == old(ix.capacity) && ix.saved == old(ix.saved)
  {
    match file
    case None =>
      diagnostics, panic, addedKeys := 0, None, [];
      assert Decoded(file)[..0] == [];
    case Some(lines) =>
      diagnostics, panic, addedKeys := IngestDecoded(ix, Flatten(lines), decode);
  }

  // ---------------------------------------------------------------------
  // setup_store and main

  /**
   * `setup_store`: build the index from the (flag-ignoring) options, count
   * the decoded lines of the first pass and reserve that many slots.
   */
  method SetupStore<E>(args: Args, file: Option<RawLines>) returns (ix: Index<E>, fileLen: nat)
    ensures fresh(ix)
    ensures ix.options == OptionsFor(args)
    ensures fileLen == |Decoded(file)| && ix.capacity == fileLen
    ensures ix.entries == map[] && ix.saved == None && ix.addLog == []
  {
    ix := new Index(OptionsFor(args));
    fileLen := CountDecodedLines(file);
    ix.Reserve(fileLen);
  }

  /** Whole minutes in an elapsed time, truncated: a run under a minute reports 0. */
  function Minutes(elapsedMs: nat): (m: nat)
    ensures m * 60_000 <= elapsedMs < (m + 1) * 60_000
  {
    elapsedMs / 60_000
  }

  /** How a run ends. */
  datatype RunOutcome =
    | Panicked(ordinal: nat)
    | Finished(fileLen: nat, diagnostics: nat, minutes: nat)

  /**
   * `main`: both passes read the same `file`; `elapsedMs` is the stopwatch
   * reading after the ingestion barrier. A run that does not panic saves the
   * index to `--output` holding exactly the accepted vectors, within the
   * reserved capacity. `addedKeys` is the index's log of the keys passed to
   * `Index::add`: distinct, below the precount, and no more of them than the
   * precount.
   */
  method Run<E>(args: Args, file: Option<RawLines>, decode: string -> Option<seq<E>>, elapsedMs: nat)
    returns (ix: Index<E>, outcome: RunOutcome, ghost addedKeys: seq<nat>)
    ensures fresh(ix)
    ensures ix.options == OptionsFor(args)
    ensures ix.capacity == |Decoded(file)|
    ensures forall i, j :: 0 <= i < j < |addedKeys| ==> addedKeys[i] < addedKeys[j]
    ensures forall i :: 0 <= i < |addedKeys| ==> addedKeys[i] < ix.capacity
    ensures |addedKeys| <= ix.capacity
    ensures forall k :: k in addedKeys <==> k in ix.entries
    ensures |addedKeys| == |ix.entries|
    ensures ix.addLog == addedKeys
    ensures var d := Decoded(file);
      match outcome
      case Panicked(p) =>
        && p == FirstShort(d, decode) < |d|
        && ix.saved == None
      case Finished(fileLen, diagnostics, minutes) =>
        && FirstShort(d, decode) == |d|
        && fileLen == |d| && ix.capacity == fileLen
        && ix.entries == Entries(d, decode)
        && (forall k :: k in ix.entries ==> k < ix.capacity)
        && |ix.entries| <= ix.capacity
        && |ix.entries| + diagnostics + SilentDrops(d, decode) == fileLen
        && diagnostics == Diagnostics(d, decode)
        && minutes == Minutes(elapsedMs)
        && ix.saved == Some(Snapshot(args.output, Entries(d, decode)))
  {
    var fileLen;
    ix, fileLen := SetupStore(args, file);
    var diagnostics, panic;
    diagnostics, panic, addedKeys := IngestLines(ix, file, decode);
    ghost var d := Decoded(file);
    if panic.Some? {
      outcome := Panicked(panic.value);
      return;
    }
    assert d[..|d|] == d;
    assert ix.entries == Entries(d, decode);
    Accounting(d, decode);
    var minutes := Minutes(elapsedMs);
    ix.Save(args.output);
    outcome := Finished(fileLen, diagnostics, minutes);
  }
}
