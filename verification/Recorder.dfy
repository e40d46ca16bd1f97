/** The market-data recorder: callbacks enqueue ticks, a writer drains them in batches into one file per symbol and day. */
module Recorder {
  import opened Numeric
  import opened Text

  datatype Row = Row(
    tradingDay: string, instrument: string, exchange: string, timestamp: string,
    last: real, high: real, low: real, volume: int, turnover: real, openInterest: real,
    askSize: int, ask: real, bidSize: int, bid: real, upperLimitPrice: real, lowerLimitPrice: real)

  function SymbolKey(instrument: string, exchange: string): string {
    Upper(instrument) + "." + Upper(exchange)
  }

  /** Symbols have the same key exactly if instrument and exchange are the same up to letter case. */
  lemma SymbolKeysTellApart(instrument: string, exchange: string, other: string, at: string)
    requires '.' !in exchange && '.' !in at
    ensures SymbolKey(instrument, exchange) == SymbolKey(other, at)
       <==> Upper(instrument) == Upper(other) && Upper(exchange) == Upper(at)
  {
    hide Upper;
    UpperAddsNoPoint(exchange);
    UpperAddsNoPoint(at);
    if SymbolKey(instrument, exchange) == SymbolKey(other, at) {
      SplitsAlike(Upper(instrument), Upper(exchange), Upper(other), Upper(at), '.');
    }
  }

  lemma UpperAddsNoPoint(s: string)
    requires '.' !in s
    ensures '.' !in Upper(s)
  {
  }

  function KeyOf(row: Row): string {
    SymbolKey(row.instrument, row.exchange)
  }

  /** What becomes of a market-data callback before it reaches the queue. */
  datatype Incoming = Invalid | OutOfSession | InSession(row: Row)

  /** An output file: `<day>_<instrument>.<exchange>.csv`. */
  datatype FileName = FileName(tradingDay: string, instrument: string, exchange: string)

  function FileFor(row: Row): FileName {
    FileName(row.tradingDay, row.instrument, row.exchange)
  }

  type Files = map<FileName, seq<Row>>

  /** Where the writer is in its loop: waiting for rows, writing the batch it took, or done. */
  datatype Phase = Waiting | Writing(shouldStop: bool, tookNothing: bool) | Finished

  datatype State = State(
    received: nat, invalid: nat, outOfSession: nat, deduplicated: nat, written: nat,
    pending: seq<Row>, lastEnqueued: map<string, Row>, stopRequested: bool,
    phase: Phase, batch: seq<Row>, shards: map<string, FileName>, files: Files)

  const START := State(0, 0, 0, 0, 0, [], map[], false, Waiting, [], map[], map[])

  predicate IsRepeat(s: State, row: Row) {
    KeyOf(row) in s.lastEnqueued && s.lastEnqueued[KeyOf(row)] == row
  }

  /** `OnRtnDepthMarketData`. */
  function AfterCallback(s: State, incoming: Incoming, deduplicate: bool): State {
    var counted := s.(received := s.received + 1);
    match incoming
    case Invalid => counted.(invalid := s.invalid + 1)
    case OutOfSession => counted.(outOfSession := s.outOfSession + 1)
    case InSession(row) =>
      if deduplicate && IsRepeat(s, row) then counted.(deduplicated := s.deduplicated + 1)
      else counted.(lastEnqueued := if deduplicate then s.lastEnqueued[KeyOf(row) := row] else s.lastEnqueued,
                    pending := s.pending + [row])
  }

  /** The file a row goes to: the open one of its symbol, unless the trading day has changed. */
  function ShardFor(shards: map<string, FileName>, row: Row): FileName {
    var key := KeyOf(row);
    if key in shards && shards[key].tradingDay == row.tradingDay then shards[key] else FileFor(row)
  }

  function RowsIn(files: Files, name: FileName): seq<Row> {
    if name in files then files[name] else []
  }

  /** `write_tick`, and the count after it. */
  function AfterWrite(s: State, row: Row): (t: State)
    ensures t.batch == s.batch && t.pending == s.pending && t.phase == s.phase && t.stopRequested == s.stopRequested
    ensures t.received == s.received && t.invalid == s.invalid && t.outOfSession == s.outOfSession
    ensures t.deduplicated == s.deduplicated && t.lastEnqueued == s.lastEnqueued && t.written == s.written + 1
  {
    var name := ShardFor(s.shards, row);
    s.(shards := s.shards[KeyOf(row) := name], files := s.files[name := RowsIn(s.files, name) + [row]],
       written := s.written + 1)
  }

  /** The next action of `writer_loop`: take what is pending, write the next row of the batch, or go round again. */
  function AfterWriter(s: State): State {
    match s.phase
    case Waiting =>
      s.(batch := s.pending, pending := [], phase := Writing(s.stopRequested, s.pending == []))
    case Writing(shouldStop, tookNothing) =>
      if s.batch != [] then AfterWrite(s, s.batch[0]).(batch := s.batch[1..])
      else s.(phase := if shouldStop && tookNothing then Finished else Waiting)
    case Finished => s
  }

  class CtpMdRecorder {
    const deduplicate: bool
    var received: nat
    var invalid: nat
    var outOfSession: nat
    var deduplicated: nat
    var written: nat
    var pending: seq<Row>
    var lastEnqueued: map<string, Row>
    var stopRequested: bool
    var phase: Phase
    var batch: seq<Row>
    var shards: map<string, FileName>
    var files: Files

    constructor (deduplicate: bool)
      ensures Value() == START && this.deduplicate == deduplicate
    {
      this.deduplicate := deduplicate;
      received, invalid, outOfSession, deduplicated, written := 0, 0, 0, 0, 0;
      pending, lastEnqueued, stopRequested, phase, batch, shards, files := [], map[], false, Waiting, [], map[], map[];
    }

    function Value(): State
      reads this
    {
      State(received, invalid, outOfSession, deduplicated, written, pending, lastEnqueued, stopRequested,
            phase, batch, shards, files)
    }

    method OnRtnDepthMarketData(incoming: Incoming)
      modifies this`received, this`invalid, this`outOfSession, this`deduplicated, this`pending, this`lastEnqueued
      ensures Value() == AfterCallback(old(Value()), incoming, deduplicate)
    {
      received := received + 1;
      if incoming.Invalid? {
        invalid := invalid + 1;
        return;
      }
      if incoming.OutOfSession? {
        outOfSession := outOfSession + 1;
        return;
      }
      var row := incoming.row;
      if deduplicate {
        var key := KeyOf(row);
        if key in lastEnqueued && lastEnqueued[key] == row {
          deduplicated := deduplicated + 1;
          return;
        }
        lastEnqueued := lastEnqueued[key := row];
      }
      pending := pending + [row];
    }

    method WriteTick(row: Row)
      modifies this`shards, this`files, this`written
      ensures Value() == AfterWrite(old(Value()), row)
    {
      hide SymbolKey;
      var key := KeyOf(row);
      if key !in shards {
        shards := shards[key := FileFor(row)];
      } else if shards[key].tradingDay != row.tradingDay {
        shards := shards[key := FileFor(row)];
      }
      files := files[shards[key] := RowsIn(files, shards[key]) + [row]];
      written := written + 1;
    }

    /** The next action of `writer_loop`, between any two of which callbacks and the stop may come. */
    method WriterAction()
      modifies this`pending, this`shards, this`files, this`written, this`phase, this`batch
      ensures Value() == AfterWriter(old(Value()))
    {
      hide AfterWrite;
      if phase.Waiting? {
        phase := Writing(stopRequested, pending == []);
        batch, pending := pending, [];
      } else if phase.Writing? && batch != [] {
        WriteTick(batch[0]);
        batch := batch[1..];
      } else if phase.Writing? {
        phase := if phase.shouldStop && phase.tookNothing then Finished else Waiting;
      }
    }

    method RequestStop()
      modifies this`stopRequested
      ensures Value() == old(Value()).(stopRequested := true)
    {
      stopRequested := true;
    }

    /** `writer_loop` once `stop` has been requested: it takes what is left, writes it, goes round once more and ends. */
    method WriterLoop()
      requires stopRequested && phase.Waiting? && batch == []
      modifies this`pending, this`shards, this`files, this`written, this`phase, this`batch
      ensures Value() == AfterWriting(old(Value()), old(pending)).(pending := [], phase := Finished)
    {
      hide AfterWrite;
      ghost var start := Value();
      while true
        invariant stopRequested && phase.Waiting? && batch == []
        invariant Value() == start || Value() == AfterWriting(start, start.pending).(pending := [])
        decreases |pending|
      {
        var taken := pending;
        pending := [];
        var shouldStop := stopRequested && pending == [];
        ghost var before := Value();
        for n := 0 to |taken|
          invariant Value() == AfterWriting(before, taken[..n])
        {
          assert taken[..n + 1][..n] == taken[..n];
          WriteTick(taken[n]);
        }
        assert taken[..|taken|] == taken;
        if shouldStop && taken == [] {
          break;
        }
        WritingIgnoresQueue(start, taken);
      }
      phase := Finished;
    }
  }

  /** Writing rows one after the other. */
  function AfterWriting(s: State, rows: seq<Row>): (t: State)
    ensures t == s.(shards := t.shards, files := t.files, written := s.written + |rows|)
  {
    if rows == [] then s else AfterWrite(AfterWriting(s, rows[..|rows| - 1]), rows[|rows| - 1])
  }

  lemma {:induction false} WritingIgnoresQueue(s: State, rows: seq<Row>)
    ensures AfterWriting(s.(pending := []), rows) == AfterWriting(s, rows).(pending := [])
  {
    if rows != [] {
      WritingIgnoresQueue(s, rows[..|rows| - 1]);
    }
  }

  // ---- Interleavings ----

  datatype Step = Callback(incoming: Incoming) | Stop | Writer

  function Apply(s: State, step: Step, deduplicate: bool): State {
    match step
    case Callback(incoming) => AfterCallback(s, incoming, deduplicate)
    case Stop => s.(stopRequested := true)
    case Writer => AfterWriter(s)
  }

  function Run(s: State, steps: seq<Step>, deduplicate: bool): State {
    if steps == [] then s
    else Apply(Run(s, steps[..|steps| - 1], deduplicate), steps[|steps| - 1], deduplicate)
  }

  /** Every tick received is accounted for. */
  predicate Accounted(s: State) {
    s.received == s.invalid + s.outOfSession + s.deduplicated + |s.pending| + |s.batch| + s.written
  }

  /** Only a writer in the middle of its round has rows in its batch. */
  predicate Sound(s: State) {
    && Accounted(s)
    && (s.batch != [] ==> s.phase.Writing? && !s.phase.tookNothing)
    && (s.phase.Writing? && s.phase.shouldStop ==> s.stopRequested)
    && (s.phase.Finished? ==> s.stopRequested)
  }

  lemma CallbackKeepsSound(s: State, incoming: Incoming, deduplicate: bool)
    requires Sound(s)
    ensures Sound(AfterCallback(s, incoming, deduplicate))
  {
    hide IsRepeat, KeyOf;
  }

  lemma WriterKeepsSound(s: State)
    requires Sound(s)
    ensures Sound(AfterWriter(s))
  {
    hide AfterWrite;
  }

  lemma StepKeepsSound(s: State, step: Step, deduplicate: bool)
    requires Sound(s)
    ensures Sound(Apply(s, step, deduplicate))
  {
    hide AfterCallback, AfterWriter;
    match step {
      case Callback(incoming) => CallbackKeepsSound(s, incoming, deduplicate);
      case Stop =>
      case Writer => WriterKeepsSound(s);
    }
  }

  /** Between any two steps of callbacks, writer and stop, every tick received is invalid, out of session, a repeat, pending,
      in the batch, or written. */
  lemma {:induction false} EveryTickIsAccountedFor(steps: seq<Step>, deduplicate: bool)
    ensures Sound(Run(START, steps, deduplicate))
  {
    hide Apply, Sound;
    if steps == [] {
      assert Sound(START) by {
        StartIsSound();
      }
    } else {
      var front := steps[..|steps| - 1];
      EveryTickIsAccountedFor(front, deduplicate);
      StepKeepsSound(Run(START, front, deduplicate), steps[|steps| - 1], deduplicate);
    }
  }

  lemma StartIsSound()
    ensures Sound(START)
  {
  }

  // ---- What is written ----

  /** The ticks of a run that were valid and in session, in order of arrival. */
  function Accepted(steps: seq<Step>): seq<Row> {
    if steps == [] then []
    else
      Accepted(steps[..|steps| - 1]) + AcceptedBy(steps[|steps| - 1])
  }

  function AcceptedBy(step: Step): seq<Row> {
    if step.Callback? && step.incoming.InSession? then [step.incoming.row] else []
  }

  /** The row a step writes. */
  function RowBy(s: State, step: Step): seq<Row> {
    if step.Writer? && s.phase.Writing? && s.batch != [] then [s.batch[0]] else []
  }

  /** The rows a run writes, in order. */
  function Written(steps: seq<Step>, deduplicate: bool): seq<Row> {
    if steps == [] then []
    else
      var front := steps[..|steps| - 1];
      Written(front, deduplicate) + RowBy(Run(START, front, deduplicate), steps[|steps| - 1])
  }

  /** The rows of one symbol. */
  function Of(rows: seq<Row>, key: string): seq<Row> {
    if rows == [] then []
    else
      var last := rows[|rows| - 1];
      Of(rows[..|rows| - 1], key) + (if KeyOf(last) == key then [last] else [])
  }

  /** A sequence with each run of equal neighbours reduced to one. */
  function Collapsed(rows: seq<Row>): seq<Row> {
    if |rows| <= 1 then rows
    else
      var front, last := rows[..|rows| - 1], rows[|rows| - 1];
      if last == rows[|rows| - 2] then Collapsed(front) else Collapsed(front) + [last]
  }

  lemma {:induction false} CollapsedKeepsTheLast(rows: seq<Row>)
    requires rows != []
    ensures Collapsed(rows) != [] && Collapsed(rows)[|Collapsed(rows)| - 1] == rows[|rows| - 1]
  {
    if |rows| > 1 {
      CollapsedKeepsTheLast(rows[..|rows| - 1]);
    }
  }

  /** No two neighbours of a collapsed sequence are equal. */
  lemma {:induction false} CollapsedHasNoRepeats(rows: seq<Row>, i: nat)
    requires i + 1 < |Collapsed(rows)|
    ensures Collapsed(rows)[i] != Collapsed(rows)[i + 1]
  {
    var front := rows[..|rows| - 1];
    CollapsedKeepsTheLast(front);
    if i + 1 < |Collapsed(front)| {
      CollapsedHasNoRepeats(front, i);
    }
  }

  lemma OfStep(rows: seq<Row>, row: Row, key: string)
    ensures Of(rows + [row], key) == Of(rows, key) + (if KeyOf(row) == key then [row] else [])
  {
    assert (rows + [row])[..|rows|] == rows;
  }

  lemma CollapsedStep(rows: seq<Row>, row: Row)
    ensures Collapsed(rows + [row])
         == if rows != [] && rows[|rows| - 1] == row then Collapsed(rows) else Collapsed(rows) + [row]
  {
    assert (rows + [row])[..|rows|] == rows;
  }

  /** The rows on their way to the files, in order: written, in the batch, pending. */
  function Enqueued(steps: seq<Step>, deduplicate: bool): seq<Row> {
    var s := Run(START, steps, deduplicate);
    Written(steps, deduplicate) + s.batch + s.pending
  }

  /** The row a step puts into the queue. */
  function Joining(s: State, step: Step, deduplicate: bool): seq<Row> {
    if step.Callback? && step.incoming.InSession? && !(deduplicate && IsRepeat(s, step.incoming.row))
    then [step.incoming.row]
    else []
  }

  lemma CallbackQueues(s: State, incoming: Incoming, deduplicate: bool)
    ensures var t := AfterCallback(s, incoming, deduplicate);
      t.batch == s.batch && t.phase == s.phase
      && t.pending == s.pending + Joining(s, Callback(incoming), deduplicate)
  {
    hide KeyOf;
  }

  lemma WriterQueues(s: State)
    requires Sound(s)
    ensures RowBy(s, Writer) + AfterWriter(s).batch + AfterWriter(s).pending == s.batch + s.pending
  {
    hide AfterWrite;
    assert s.batch != [] ==> [s.batch[0]] + s.batch[1..] == s.batch;
  }

  lemma QueueStep(s: State, step: Step, deduplicate: bool)
    requires Sound(s)
    ensures var t := Apply(s, step, deduplicate);
      RowBy(s, step) + t.batch + t.pending == s.batch + s.pending + Joining(s, step, deduplicate)
  {
    hide AfterWriter, AfterCallback, Sound, IsRepeat;
    match step {
      case Callback(incoming) => CallbackQueues(s, incoming, deduplicate);
      case Stop =>
      case Writer => WriterQueues(s);
    }
  }

  lemma Regroup(w: seq<Row>, row: seq<Row>, batch: seq<Row>, pending: seq<Row>, front: seq<Row>, queue: seq<Row>,
                joining: seq<Row>)
    requires row + batch + pending == front + queue + joining
    ensures w + row + batch + pending == w + front + queue + joining
  {
    assert w + row + batch + pending == w + (row + batch + pending);
    assert w + (front + queue + joining) == w + front + queue + joining;
  }

  lemma WrittenStep(steps: seq<Step>, step: Step, deduplicate: bool)
    ensures Run(START, steps + [step], deduplicate) == Apply(Run(START, steps, deduplicate), step, deduplicate)
    ensures Written(steps + [step], deduplicate)
         == Written(steps, deduplicate) + RowBy(Run(START, steps, deduplicate), step)
  {
    hide Apply, RowBy;
    assert (steps + [step])[..|steps|] == steps;
  }

  /** A row joins the queue exactly when a callback accepts it and it is not a repeat; no other step adds or loses a row. */
  lemma EnqueuedStep(steps: seq<Step>, step: Step, deduplicate: bool)
    ensures Enqueued(steps + [step], deduplicate)
         == Enqueued(steps, deduplicate) + Joining(Run(START, steps, deduplicate), step, deduplicate)
  {
    hide Apply, Joining, RowBy, Sound, Run, Written;
    var s := Run(START, steps, deduplicate);
    var t := Apply(s, step, deduplicate);
    WrittenStep(steps, step, deduplicate);
    EveryTickIsAccountedFor(steps, deduplicate);
    QueueStep(s, step, deduplicate);
    Regroup(Written(steps, deduplicate), RowBy(s, step), t.batch, t.pending, s.batch, s.pending,
            Joining(s, step, deduplicate));
  }

  /** With deduplication on, the last accepted tick of each symbol is the one remembered. */
  predicate Remembers(s: State, accepted: seq<Row>, key: string) {
    var own := Of(accepted, key);
    if own == [] then key !in s.lastEnqueued
    else key in s.lastEnqueued && s.lastEnqueued[key] == own[|own| - 1]
  }

  lemma RememberedStep(s: State, step: Step, accepted: seq<Row>, key: string)
    requires Remembers(s, accepted, key)
    ensures Remembers(Apply(s, step, true), accepted + AcceptedBy(step), key)
  {
    hide KeyOf, Of, AfterWrite;
    if AcceptedBy(step) != [] {
      var row := step.incoming.row;
      OfStep(accepted, row, key);
      assert Apply(s, step, true).lastEnqueued == s.lastEnqueued[KeyOf(row) := row] by {
        LatestIsRemembered(s, row);
      }
    } else {
      assert accepted + [] == accepted;
      assert Apply(s, step, true).lastEnqueued == s.lastEnqueued;
    }
  }

  lemma LatestIsRemembered(s: State, row: Row)
    ensures AfterCallback(s, InSession(row), true).lastEnqueued == s.lastEnqueued[KeyOf(row) := row]
  {
    hide KeyOf;
  }

  /** Symbol by symbol, what is enqueued is what was accepted, with repeats of the previous tick left out. */
  lemma {:induction false} EnqueuedIsCollapsed(steps: seq<Step>, key: string)
    ensures Of(Enqueued(steps, true), key) == Collapsed(Of(Accepted(steps), key))
    ensures Remembers(Run(START, steps, true), Accepted(steps), key)
  {
    hide Apply, Enqueued, KeyOf, RowBy, Remembers, Of, Collapsed;
    if steps == [] {
      NothingYet(key);
    } else {
      var front, last := steps[..|steps| - 1], steps[|steps| - 1];
      var s := Run(START, front, true);
      assert steps == front + [last];
      EnqueuedIsCollapsed(front, key);
      EnqueuedStep(front, last, true);
      RememberedStep(s, last, Accepted(front), key);
      JoinsUnlessRepeat(s, last, Accepted(front), Enqueued(front, true), key);
    }
  }

  lemma NothingYet(key: string)
    ensures Of(Enqueued([], true), key) == Collapsed(Of([], key)) && Remembers(START, [], key)
  {
  }

  lemma JoinsUnlessRepeat(s: State, step: Step, accepted: seq<Row>, enqueued: seq<Row>, key: string)
    requires Remembers(s, accepted, key) && Of(enqueued, key) == Collapsed(Of(accepted, key))
    ensures Of(enqueued + Joining(s, step, true), key) == Collapsed(Of(accepted + AcceptedBy(step), key))
  {
    hide KeyOf, Of, Collapsed;
    if AcceptedBy(step) == [] {
      assert accepted + [] == accepted && enqueued + [] == enqueued;
    } else {
      var row := step.incoming.row;
      OfStep(accepted, row, key);
      OfStep(enqueued, row, key);
      CollapsedStep(Of(accepted, key), row);
      assert enqueued + [] == enqueued && Of(accepted, key) + [] == Of(accepted, key);
    }
  }

  /** Without deduplication everything accepted is enqueued, in order. */
  lemma {:induction false} EnqueuedIsAccepted(steps: seq<Step>)
    ensures Enqueued(steps, false) == Accepted(steps)
  {
    hide Apply, Enqueued, RowBy;
    if steps == [] {
      assert Enqueued([], false) == [] by {
        NothingEnqueued();
      }
    } else {
      var front, last := steps[..|steps| - 1], steps[|steps| - 1];
      assert steps == front + [last];
      EnqueuedIsAccepted(front);
      EnqueuedStep(front, last, false);
    }
  }

  lemma NothingEnqueued()
    ensures Enqueued([], false) == []
  {
  }

  // ---- Where rows are written ----

  /** Every row lies in a file of its own day and symbol, and the files hold as many rows as were written. */
  ghost predicate FilesAgree(s: State) {
    && (forall key :: key in s.shards ==> SymbolKey(s.shards[key].instrument, s.shards[key].exchange) == key)
    && (forall name :: name in s.files ==> forall row :: row in s.files[name] ==>
          row.tradingDay == name.tradingDay && KeyOf(row) == SymbolKey(name.instrument, name.exchange))
    && Total(Sizes(s.files)) == s.written
  }

  function Sizes(files: Files): map<FileName, int> {
    map name | name in files :: |files[name]|
  }

  lemma AppendCounts(files: Files, name: FileName, row: Row)
    ensures Total(Sizes(files[name := RowsIn(files, name) + [row]])) == Total(Sizes(files)) + 1
  {
    TotalUpdate(Sizes(files), name, |RowsIn(files, name)| + 1);
    assert Sizes(files[name := RowsIn(files, name) + [row]]) == Sizes(files)[name := |RowsIn(files, name)| + 1];
  }

  lemma WriteKeepsFiles(s: State, row: Row)
    requires FilesAgree(s)
    ensures FilesAgree(AfterWrite(s, row))
  {
    hide SymbolKey, Sizes;
    AppendCounts(s.files, ShardFor(s.shards, row), row);
  }

  lemma StepKeepsFiles(s: State, step: Step, deduplicate: bool)
    requires FilesAgree(s)
    ensures FilesAgree(Apply(s, step, deduplicate))
  {
    hide FilesAgree, AfterWrite, IsRepeat, KeyOf;
    if step.Writer? && s.phase.Writing? && s.batch != [] {
      WriteKeepsFiles(s, s.batch[0]);
      SameFilesAgree(AfterWrite(s, s.batch[0]), AfterWriter(s));
    } else {
      SameFilesAgree(s, Apply(s, step, deduplicate));
    }
  }

  lemma SameFilesAgree(s: State, t: State)
    requires s.shards == t.shards && s.files == t.files && s.written == t.written
    ensures FilesAgree(s) == FilesAgree(t)
  {
  }

  /** Every row ends up in a file of its own trading day and symbol, and there are as many as were written. */
  lemma {:induction false} RowsLandInTheirDay(steps: seq<Step>, deduplicate: bool)
    ensures FilesAgree(Run(START, steps, deduplicate))
  {
    hide Apply, FilesAgree;
    if steps == [] {
      assert FilesAgree(START) by {
        NoFilesAgree();
      }
    } else {
      var front := steps[..|steps| - 1];
      RowsLandInTheirDay(front, deduplicate);
      StepKeepsFiles(Run(START, front, deduplicate), steps[|steps| - 1], deduplicate);
    }
  }

  lemma NoFilesAgree()
    ensures FilesAgree(START)
  {
    assert Sizes(map[]) == map[];
  }

  /** The open file of each symbol once some rows were written. */
  function OpenAfter(rows: seq<Row>): map<string, FileName> {
    if rows == [] then map[]
    else
      var before, last := OpenAfter(rows[..|rows| - 1]), rows[|rows| - 1];
      before[KeyOf(last) := ShardFor(before, last)]
  }

  /** The rows, of some written one after the other, that go to one file. */
  function RoutedTo(rows: seq<Row>, name: FileName): seq<Row> {
    if rows == [] then []
    else
      var front, last := rows[..|rows| - 1], rows[|rows| - 1];
      RoutedTo(front, name) + (if ShardFor(OpenAfter(front), last) == name then [last] else [])
  }

  lemma RoutedStep(rows: seq<Row>, row: Row, name: FileName)
    ensures OpenAfter(rows + [row]) == OpenAfter(rows)[KeyOf(row) := ShardFor(OpenAfter(rows), row)]
    ensures RoutedTo(rows + [row], name)
         == RoutedTo(rows, name) + (if ShardFor(OpenAfter(rows), row) == name then [row] else [])
  {
    hide ShardFor, KeyOf;
    assert (rows + [row])[..|rows|] == rows;
  }

  lemma WriteGoesToItsFile(s: State, rows: seq<Row>, row: Row, name: FileName)
    requires s.shards == OpenAfter(rows) && RowsIn(s.files, name) == RoutedTo(rows, name)
    ensures AfterWrite(s, row).shards == OpenAfter(rows + [row])
    ensures RowsIn(AfterWrite(s, row).files, name) == RoutedTo(rows + [row], name)
  {
    hide ShardFor, KeyOf, OpenAfter, RoutedTo;
    RoutedStep(rows, row, name);
  }

  lemma CallbackWritesNothing(s: State, incoming: Incoming, deduplicate: bool)
    ensures var t := AfterCallback(s, incoming, deduplicate); t.shards == s.shards && t.files == s.files
  {
    hide IsRepeat, KeyOf;
  }

  lemma WriterWrites(s: State)
    requires s.phase.Writing? && s.batch != []
    ensures var t := AfterWrite(s, s.batch[0]); AfterWriter(s).shards == t.shards && AfterWriter(s).files == t.files
  {
    hide AfterWrite;
  }

  lemma WriterGoesRound(s: State)
    requires !(s.phase.Writing? && s.batch != [])
    ensures AfterWriter(s).shards == s.shards && AfterWriter(s).files == s.files
  {
    hide AfterWrite;
  }

  lemma StepWrites(s: State, step: Step, deduplicate: bool)
    ensures RowBy(s, step) == [] ==>
      Apply(s, step, deduplicate).shards == s.shards && Apply(s, step, deduplicate).files == s.files
    ensures RowBy(s, step) != [] ==>
      && s.batch != [] && RowBy(s, step) == [s.batch[0]]
      && Apply(s, step, deduplicate).shards == AfterWrite(s, s.batch[0]).shards
      && Apply(s, step, deduplicate).files == AfterWrite(s, s.batch[0]).files
  {
    hide AfterWrite, AfterWriter, AfterCallback;
    match step {
      case Callback(incoming) => CallbackWritesNothing(s, incoming, deduplicate);
      case Stop =>
      case Writer =>
        if s.phase.Writing? && s.batch != [] {
          WriterWrites(s);
        } else {
          WriterGoesRound(s);
        }
    }
  }

  /** Each file holds, in order, exactly the rows that were written and routed to it: none is lost, repeated or moved. */
  lemma {:induction false} FilesHoldWhatWasWritten(steps: seq<Step>, deduplicate: bool, name: FileName)
    ensures Run(START, steps, deduplicate).shards == OpenAfter(Written(steps, deduplicate))
    ensures RowsIn(Run(START, steps, deduplicate).files, name) == RoutedTo(Written(steps, deduplicate), name)
  {
    hide Apply, RowBy, AfterWrite, OpenAfter, RoutedTo;
    if steps == [] {
      assert OpenAfter([]) == map[] && RoutedTo([], name) == [] by {
        NothingRouted(name);
      }
    } else {
      var front, last := steps[..|steps| - 1], steps[|steps| - 1];
      var s, rows := Run(START, front, deduplicate), Written(front, deduplicate);
      FilesHoldWhatWasWritten(front, deduplicate, name);
      StepWrites(s, last, deduplicate);
      if RowBy(s, last) == [] {
        assert rows + [] == rows;
      } else {
        WriteGoesToItsFile(s, rows, s.batch[0], name);
      }
    }
  }

  lemma NothingRouted(name: FileName)
    ensures OpenAfter([]) == map[] && RoutedTo([], name) == []
  {
  }

  function KeyOfFile(name: FileName): string {
    SymbolKey(name.instrument, name.exchange)
  }

  lemma {:induction false} OpenFilesAreTheirSymbols(rows: seq<Row>)
    ensures forall key :: key in OpenAfter(rows) ==> KeyOfFile(OpenAfter(rows)[key]) == key
  {
    hide SymbolKey;
    if rows != [] {
      OpenFilesAreTheirSymbols(rows[..|rows| - 1]);
    }
  }

  lemma ShardIsItsSymbols(rows: seq<Row>, row: Row)
    ensures KeyOfFile(ShardFor(OpenAfter(rows), row)) == KeyOf(row)
  {
    hide SymbolKey, OpenAfter;
    OpenFilesAreTheirSymbols(rows);
  }

  /** Where a row goes depends only on the rows of its own symbol before it. */
  lemma {:induction false} RoutingIsPerSymbol(rows: seq<Row>, name: FileName)
    ensures var key, own := KeyOfFile(name), Of(rows, KeyOfFile(name));
      && (key in OpenAfter(rows) <==> key in OpenAfter(own))
      && (key in OpenAfter(rows) ==> OpenAfter(rows)[key] == OpenAfter(own)[key])
      && RoutedTo(rows, name) == RoutedTo(own, name)
  {
    hide KeyOf, KeyOfFile, ShardFor;
    if rows != [] {
      var front, last := rows[..|rows| - 1], rows[|rows| - 1];
      var key := KeyOfFile(name);
      var own := Of(front, key);
      RoutingIsPerSymbol(front, name);
      ShardIsItsSymbols(front, last);
      if KeyOf(last) == key {
        RoutedStep(own, last, name);
        SameShard(OpenAfter(front), OpenAfter(own), last);
      } else {
        assert own + [] == own;
      }
    }
  }

  lemma SameShard(shards: map<string, FileName>, others: map<string, FileName>, row: Row)
    requires KeyOf(row) in shards <==> KeyOf(row) in others
    requires KeyOf(row) in shards ==> shards[KeyOf(row)] == others[KeyOf(row)]
    ensures ShardFor(shards, row) == ShardFor(others, row)
  {
    hide KeyOf;
  }

  /** The row that began the current stretch of rows of one trading day. */
  function FirstOfDay(rows: seq<Row>): Row
    requires rows != []
  {
    var last := |rows| - 1;
    if last > 0 && rows[last - 1].tradingDay == rows[last].tradingDay then FirstOfDay(rows[..last]) else rows[last]
  }

  /** A row goes to the file named by the first row of its symbol's current stretch of one trading day, however the rows
      after that spell the symbol. */
  lemma {:induction false} StretchSharesAFile(rows: seq<Row>, row: Row)
    ensures ShardFor(OpenAfter(rows), row) == FileFor(FirstOfDay(Of(rows, KeyOf(row)) + [row]))
  {
    hide KeyOf;
    OpenFileOf(rows, KeyOf(row));
    var own := Of(rows, KeyOf(row));
    assert (own + [row])[..|own|] == own;
  }

  lemma {:induction false} OpenFileOf(rows: seq<Row>, key: string)
    ensures var own := Of(rows, key);
      && (key in OpenAfter(rows) <==> own != [])
      && (own != [] ==> OpenAfter(rows)[key] == FileFor(FirstOfDay(own)))
      && (own != [] ==> FirstOfDay(own).tradingDay == own[|own| - 1].tradingDay)
  {
    hide KeyOf;
    if rows != [] {
      var front, last := rows[..|rows| - 1], rows[|rows| - 1];
      var own := Of(front, key);
      OpenFileOf(front, key);
      if KeyOf(last) == key {
        assert Of(rows, key) == own + [last] && (own + [last])[..|own|] == own;
      } else {
        assert Of(rows, key) == own;
      }
    }
  }

  function OnDay(rows: seq<Row>, day: string): seq<Row> {
    if rows == [] then []
    else
      OnDay(rows[..|rows| - 1], day) + (if rows[|rows| - 1].tradingDay == day then [rows[|rows| - 1]] else [])
  }

  /** Rows that spell their instrument and exchange alike, letter case included. */
  predicate SpelledAs(rows: seq<Row>, instrument: string, exchange: string) {
    forall row :: row in rows ==> row.instrument == instrument && row.exchange == exchange
  }

  /** When a symbol is always spelled alike, its file of a day gets exactly its rows of that day, also when days
      alternate. */
  lemma {:induction false} RoutedByDay(own: seq<Row>, name: FileName)
    requires SpelledAs(own, name.instrument, name.exchange)
    ensures forall key :: key in OpenAfter(own) ==>
      OpenAfter(own)[key].instrument == name.instrument && OpenAfter(own)[key].exchange == name.exchange
    ensures RoutedTo(own, name) == OnDay(own, name.tradingDay)
  {
    hide KeyOf;
    if own != [] {
      var front, last := own[..|own| - 1], own[|own| - 1];
      assert SpelledAs(front, name.instrument, name.exchange) && last in own;
      RoutedByDay(front, name);
      assert ShardFor(OpenAfter(front), last) == FileFor(last);
    }
  }

  // ---- Stopping ----

  /** `stop` disconnects first, so that no callback follows it. */
  predicate StopsLast(steps: seq<Step>) {
    forall i, j :: 0 <= i < j < |steps| && steps[i].Stop? ==> !steps[j].Callback?
  }

  /** A writer about to leave its loop leaves nothing behind. */
  predicate Quiet(s: State) {
    && Sound(s)
    && (s.phase.Writing? && s.phase.shouldStop && s.phase.tookNothing ==> s.pending == [])
    && (s.phase.Finished? ==> s.pending == [])
  }

  lemma StepKeepsQuiet(s: State, step: Step, deduplicate: bool)
    requires Quiet(s) && !(s.stopRequested && step.Callback?)
    ensures Quiet(Apply(s, step, deduplicate))
    ensures Apply(s, step, deduplicate).stopRequested == (s.stopRequested || step.Stop?)
  {
    hide Accounted, AfterWrite, IsRepeat, KeyOf;
    StepKeepsSound(s, step, deduplicate);
  }

  lemma {:induction false} RunsAreQuiet(steps: seq<Step>, deduplicate: bool)
    requires StopsLast(steps)
    ensures Quiet(Run(START, steps, deduplicate))
    ensures Run(START, steps, deduplicate).stopRequested <==> Stop in steps
  {
    hide Apply, Sound;
    if steps == [] {
      StartIsSound();
    } else {
      var front, last := steps[..|steps| - 1], steps[|steps| - 1];
      RunsAreQuiet(front, deduplicate);
      StepKeepsQuiet(Run(START, front, deduplicate), last, deduplicate);
      assert steps == front + [last];
    }
  }

  /** Writer actions left until the loop ends, once a stop has been requested. */
  function ActionsLeft(s: State): nat {
    var again := if s.pending == [] then 2 else |s.pending| + 4;
    match s.phase
    case Finished => 0
    case Waiting => again
    case Writing(shouldStop, tookNothing) =>
      if shouldStop && tookNothing then |s.batch| + 1 else |s.batch| + 1 + again
  }

  lemma WriterMakesProgress(s: State)
    requires Quiet(s) && s.stopRequested && !s.phase.Finished?
    ensures ActionsLeft(AfterWriter(s)) == ActionsLeft(s) - 1
  {
    hide AfterWrite, Accounted;
  }

  /** The run continued by the writer alone. */
  function Continued(steps: seq<Step>, actions: nat): seq<Step> {
    if actions == 0 then steps else Continued(steps, actions - 1) + [Writer]
  }

  lemma WriterStep(steps: seq<Step>, deduplicate: bool)
    requires StopsLast(steps) && Stop in steps && ActionsLeft(Run(START, steps, deduplicate)) > 0
    ensures StopsLast(steps + [Writer]) && Stop in steps + [Writer]
    ensures ActionsLeft(Run(START, steps + [Writer], deduplicate)) == ActionsLeft(Run(START, steps, deduplicate)) - 1
    ensures Enqueued(steps + [Writer], deduplicate) == Enqueued(steps, deduplicate)
  {
    hide Apply, ActionsLeft, Quiet, Enqueued, Run;
    var s := Run(START, steps, deduplicate);
    RunsAreQuiet(steps, deduplicate);
    FinishedNeedsNothing(s);
    WriterMakesProgress(s);
    WriterApplies(s, deduplicate);
    WrittenStep(steps, Writer, deduplicate);
    EnqueuedStep(steps, Writer, deduplicate);
    assert Enqueued(steps, deduplicate) + [] == Enqueued(steps, deduplicate);
  }

  lemma {:induction false} WriterAloneFinishes(steps: seq<Step>, deduplicate: bool, actions: nat)
    requires StopsLast(steps) && Stop in steps
    requires actions <= ActionsLeft(Run(START, steps, deduplicate))
    ensures StopsLast(Continued(steps, actions)) && Stop in Continued(steps, actions)
    ensures ActionsLeft(Run(START, Continued(steps, actions), deduplicate))
         == ActionsLeft(Run(START, steps, deduplicate)) - actions
    ensures Enqueued(Continued(steps, actions), deduplicate) == Enqueued(steps, deduplicate)
  {
    hide ActionsLeft, StopsLast, Run, Enqueued;
    if actions > 0 {
      WriterAloneFinishes(steps, deduplicate, actions - 1);
      WriterStep(Continued(steps, actions - 1), deduplicate);
    }
  }

  lemma WriterApplies(s: State, deduplicate: bool)
    ensures Apply(s, Writer, deduplicate) == AfterWriter(s)
  {
  }

  lemma FinishedNeedsNothing(s: State)
    ensures s.phase.Finished? <==> ActionsLeft(s) == 0
  {
  }

  /** After a stop the writer, left to itself, ends after the actions it has left, with nothing pending: everything enqueued
      has been written. */
  lemma StopDrainsTheQueue(steps: seq<Step>, deduplicate: bool)
    requires StopsLast(steps) && Stop in steps
    ensures var all := Continued(steps, ActionsLeft(Run(START, steps, deduplicate)));
      && Run(START, all, deduplicate).phase.Finished?
      && Run(START, all, deduplicate).pending == [] && Run(START, all, deduplicate).batch == []
      && Written(all, deduplicate) == Enqueued(steps, deduplicate)
  {
    hide Run, ActionsLeft, Written;
    var actions := ActionsLeft(Run(START, steps, deduplicate));
    WriterAloneFinishes(steps, deduplicate, actions);
    RunsAreQuiet(Continued(steps, actions), deduplicate);
    FinishedNeedsNothing(Run(START, Continued(steps, actions), deduplicate));
  }

  // ---- From accepted ticks to files ----

  /** What is to be recorded of one symbol: its accepted ticks, with adjacent repeats removed when deduplication is on. */
  function ToRecord(steps: seq<Step>, deduplicate: bool, key: string): seq<Row> {
    if deduplicate then Collapsed(Of(Accepted(steps), key)) else Of(Accepted(steps), key)
  }

  /** After a stop, when the writer has ended, each file holds exactly what is to be recorded of its symbol and goes to
      it. */
  lemma FilesHoldTheTicks(steps: seq<Step>, deduplicate: bool, name: FileName)
    requires StopsLast(steps) && Stop in steps
    ensures var all := Continued(steps, ActionsLeft(Run(START, steps, deduplicate)));
      && Run(START, all, deduplicate).phase.Finished?
      && RowsIn(Run(START, all, deduplicate).files, name)
           == RoutedTo(ToRecord(steps, deduplicate, KeyOfFile(name)), name)
  {
    hide Run, ActionsLeft, Written, Enqueued, Of, Collapsed, RoutedTo, KeyOfFile, Accepted;
    var all := Continued(steps, ActionsLeft(Run(START, steps, deduplicate)));
    StopDrainsTheQueue(steps, deduplicate);
    FilesHoldWhatWasWritten(all, deduplicate, name);
    RoutingIsPerSymbol(Written(all, deduplicate), name);
    if deduplicate {
      EnqueuedIsCollapsed(steps, KeyOfFile(name));
    } else {
      EnqueuedIsAccepted(steps);
    }
  }

  /** For a symbol that is always spelled alike: the file of a day holds exactly that day's ticks of the symbol, in order,
      adjacent repeats removed, and nothing else. */
  lemma DayFileHoldsItsTicks(steps: seq<Step>, deduplicate: bool, name: FileName)
    requires StopsLast(steps) && Stop in steps
    requires SpelledAs(Of(Accepted(steps), KeyOfFile(name)), name.instrument, name.exchange)
    ensures var all := Continued(steps, ActionsLeft(Run(START, steps, deduplicate)));
      RowsIn(Run(START, all, deduplicate).files, name)
        == OnDay(ToRecord(steps, deduplicate, KeyOfFile(name)), name.tradingDay)
  {
    hide Run, ActionsLeft, Of, Collapsed, RoutedTo, KeyOfFile, Accepted, OnDay;
    var own := Of(Accepted(steps), KeyOfFile(name));
    FilesHoldTheTicks(steps, deduplicate, name);
    CollapsedIsSpelledAlike(own, name.instrument, name.exchange);
    RoutedByDay(ToRecord(steps, deduplicate, KeyOfFile(name)), name);
  }

  lemma {:induction false} CollapsedIsSpelledAlike(rows: seq<Row>, instrument: string, exchange: string)
    requires SpelledAs(rows, instrument, exchange)
    ensures SpelledAs(Collapsed(rows), instrument, exchange)
  {
    if |rows| > 1 {
      CollapsedIsSpelledAlike(rows[..|rows| - 1], instrument, exchange);
    }
  }
}
