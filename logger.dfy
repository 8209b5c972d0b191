/** Session recording and replay (canio/logger.py). A CSV file is a sequence
    of rows; timestamps are kept as reals (their six-digit text form is not
    modelled), and sleeping and the clock become values: each replayed
    event records the sleep performed before it, and `clock(k)` is the
    clock reading when the k-th event is produced. */
module Logger {
  import opened Base
  import opened Text
  import opened CanBus

  /** The header the logger writes. */
  const Columns := ["timestamp", "id", "dlc", "data"]

  /** One CSV row: the header, or a data row with its four columns. */
  datatype Row =
    | Header(columns: seq<string>)
    | Data(timestamp: real, id: string, dlc: string, data: string)

  /** The row `log` writes for one frame. */
  function FormatRow(m: ReceivedMessage): Row
  {
    Data(m.timestamp, PyHex(m.arbitrationId), DecimalString(|m.data|), HexBytes(m.data))
  }

  /** The file after the header and one row per logged frame. */
  function LogFile(logged: seq<ReceivedMessage>): seq<Row>
  {
    [Header(Columns)] + seq(|logged|, i requires 0 <= i < |logged| => FormatRow(logged[i]))
  }

  /** The header comes first, then row `i + 1` is the row of frame `i`. */
  lemma LogFileShape(logged: seq<ReceivedMessage>)
    ensures |LogFile(logged)| == |logged| + 1 && LogFile(logged)[0] == Header(Columns)
    ensures forall i :: 0 <= i < |logged| ==> LogFile(logged)[i + 1] == FormatRow(logged[i])
  {
    var rows := seq(|logged|, i requires 0 <= i < |logged| => FormatRow(logged[i]));
    assert LogFile(logged) == [Header(Columns)] + rows;
    forall i | 0 <= i < |logged| ensures LogFile(logged)[i + 1] == FormatRow(logged[i]) {
      assert LogFile(logged)[i + 1] == rows[i];
    }
  }

  lemma LogFileAppend(logged: seq<ReceivedMessage>, m: ReceivedMessage)
    ensures LogFile(logged + [m]) == LogFile(logged) + [FormatRow(m)]
  {
    var a, b := LogFile(logged + [m]), LogFile(logged) + [FormatRow(m)];
    LogFileShape(logged);
    LogFileShape(logged + [m]);
    assert |a| == |b|;
    forall i | 0 <= i < |a| ensures a[i] == b[i] {
      if 0 < i <= |logged| {
        assert a[i] == FormatRow(logged[i - 1]);
      }
    }
  }

  /** The file has exactly one header row, and it comes first. */
  lemma LogFileSingleHeader(logged: seq<ReceivedMessage>)
    ensures LogFile(logged)[0] == Header(Columns)
    ensures forall i :: 1 <= i < |LogFile(logged)| ==> LogFile(logged)[i].Data?
  {
    var rows := LogFile(logged);
    LogFileShape(logged);
    forall i | 1 <= i < |rows| ensures rows[i].Data? {
      assert rows[i] == FormatRow(logged[i - 1]);
    }
  }

  /** A logged row carries the frame's timestamp, its id in `hex` form, the
      payload length as its dlc, and the payload as two-digit upper-case pairs
      separated by single spaces. */
  lemma FormatRowFields(m: ReceivedMessage)
    ensures FormatRow(m).Data? && FormatRow(m).timestamp == m.timestamp
    ensures ParseHexInt(FormatRow(m).id) == Ok(m.arbitrationId)
    ensures DecimalValue(FormatRow(m).dlc) == |m.data|
    ensures |FormatRow(m).data| == if m.data == [] then 0 else 3 * |m.data| - 1
    ensures forall i :: 0 <= i < |m.data| ==> FormatRow(m).data[3 * i..3 * i + 2] == ByteHex(m.data[i])
    ensures forall i :: 0 <= i < |m.data| - 1 ==> FormatRow(m).data[3 * i + 2] == ' '
  {
    PyHexRoundTrip(m.arbitrationId);
    DecimalRoundTrip(|m.data|);
    HexBytesLength(m.data);
    forall i | 0 <= i < |m.data| ensures FormatRow(m).data[3 * i..3 * i + 2] == ByteHex(m.data[i]) {
      HexBytesPair(m.data, i);
    }
    forall i | 0 <= i < |m.data| - 1 ensures FormatRow(m).data[3 * i + 2] == ' ' {
      HexBytesSeparator(m.data, i);
    }
  }

  /** `SessionLogger`: the open file and the rows written to it. */
  class SessionLogger {
    const path: string
    var rows: seq<Row>
    var closed: bool
    /** The frames logged so far. */
    ghost var logged: seq<ReceivedMessage>

    ghost predicate Valid()
      reads this
    {
      rows == LogFile(logged)
    }

    /** Opening truncates the file and writes the header row only. */
    constructor(path: string)
      ensures Valid() && this.path == path
      ensures logged == [] && rows == [Header(Columns)] && !closed
    {
      this.path := path;
      rows := [Header(Columns)];
      closed := false;
      logged := [];
    }

    /** `log`: one row per call. Writing to a closed file raises `ValueError`. */
    method Log(m: ReceivedMessage) returns (status: Result<()>)
      requires Valid()
      modifies this`rows, this`logged
      ensures Valid()
      ensures closed ==>
        status == Err(ValueError("I/O operation on closed file.")) && rows == old(rows) && logged == old(logged)
      ensures !closed ==>
        status == Ok(()) && logged == old(logged) + [m] && rows == old(rows) + [FormatRow(m)]
    {
      if closed {
        return Err(ValueError("I/O operation on closed file."));
      }
      LogFileAppend(logged, m);
      rows := rows + [FormatRow(m)];
      logged := logged + [m];
      status := Ok(());
    }

    /** `close`: may be repeated; the rows stay as written. */
    method Close()
      modifies this`closed
      ensures closed
    {
      closed := true;
    }
  }

  /** `ReplayEvent`. */
  datatype ReplayEvent = ReplayEvent(timestamp: real, arbitrationId: int, data: seq<byte>)

  /** How `_load` reads one data row: `float` of the timestamp, `int(id, 16)`
      and `bytes(int(b, 16) for b in data.split())`; the dlc is ignored. A
      header row in a data position fails at `float("timestamp")`. */
  function ParseRow(row: Row): Result<ReplayEvent>
  {
    match row
    case Header(_) => Err(ValueError("could not convert string to float: 'timestamp'"))
    case Data(ts, id, _, data) =>
      match ParseHexInt(id)
      case Err(e) => Err(e)
      case Ok(arbId) =>
        match ParseBytes(Split(data))
        case Err(e) => Err(e)
        case Ok(bytes) => Ok(ReplayEvent(ts, arbId, bytes))
  }

  /** A row fails to parse exactly when it is a header or its id or payload
      text is not hexadecimal (or a byte is out of range), and every failure
      is a `ValueError`. A parsed row keeps the row's timestamp and holds the
      values of its id and payload text. */
  lemma ParseRowOutcome(row: Row)
    ensures var r := ParseRow(row);
      && (r.Err? <==> row.Header? || ParseHexInt(row.id).Err? || ParseBytes(Split(row.data)).Err?)
      && (r.Err? ==> r.error.ValueError?)
      && (r.Ok? ==>
            && r.value.timestamp == row.timestamp
            && Ok(r.value.arbitrationId) == ParseHexInt(row.id)
            && Ok(r.value.data) == ParseBytes(Split(row.data)))
  {
  }

  /** Reading a logged row back gives the frame's timestamp, id and bytes. */
  lemma RowRoundTrip(m: ReceivedMessage)
    ensures ParseRow(FormatRow(m)) == Ok(ReplayEvent(m.timestamp, m.arbitrationId, m.data))
  {
    PyHexRoundTrip(m.arbitrationId);
    HexBytesRoundTrip(m.data);
  }

  /** The rows `csv.DictReader` yields: all but the first, which it takes as the header. */
  function DataRows(file: seq<Row>): seq<Row>
  {
    if file == [] then [] else file[1..]
  }

  /** Row `i` is the first that does not parse. */
  predicate FirstFailure(body: seq<Row>, i: nat)
    requires i < |body|
  {
    ParseRow(body[i]).Err? && forall j :: 0 <= j < i ==> ParseRow(body[j]).Ok?
  }

  /** The loop of `_load` over the data rows, with `parse` reading one
      row: one value per row in order, or the error of the first row that
      does not parse. */
  method ParseAll<T>(body: seq<Row>, parse: Row -> Result<T>) returns (r: Result<seq<T>>)
    ensures r.Ok? <==> forall i :: 0 <= i < |body| ==> parse(body[i]).Ok?
    ensures r.Ok? ==> |r.value| == |body| && forall i :: 0 <= i < |body| ==> Ok(r.value[i]) == parse(body[i])
    ensures r.Err? ==> exists i :: 0 <= i < |body| && Err(r.error) == parse(body[i])
                                   && forall j :: 0 <= j < i ==> parse(body[j]).Ok?
  {
    var values: seq<T> := [];
    var i := 0;
    while i < |body|
      invariant 0 <= i <= |body| && |values| == i
      invariant forall j :: 0 <= j < i ==> Ok(values[j]) == parse(body[j])
    {
      var parsed := parse(body[i]);
      if parsed.Err? {
        return Err(parsed.error);
      }
      values := values + [parsed.value];
      i := i + 1;
    }
    r := Ok(values);
  }

  /** `_load`: the first row is taken as the header; then one event per data
      row, in file order. The first row that does not parse makes the whole
      load raise, so no events are kept. */
  method Load(file: seq<Row>) returns (r: Result<seq<ReplayEvent>>)
    ensures r.Ok? <==> forall i :: 0 <= i < |DataRows(file)| ==> ParseRow(DataRows(file)[i]).Ok?
    ensures r.Ok? ==> |r.value| == |DataRows(file)|
    ensures r.Ok? ==> forall i :: 0 <= i < |r.value| ==> Ok(r.value[i]) == ParseRow(DataRows(file)[i])
    ensures r.Err? ==> exists i :: 0 <= i < |DataRows(file)| && FirstFailure(DataRows(file), i) && Err(r.error) == ParseRow(DataRows(file)[i])
  {
    var body := DataRows(file);
    r := ParseAll(body, ParseRow);
    if r.Err? {
      var i :| 0 <= i < |body| && Err(r.error) == ParseRow(body[i]) && forall j :: 0 <= j < i ==> ParseRow(body[j]).Ok?;
      assert FirstFailure(body, i);
    }
  }

  /** A file the logger wrote loads back to the logged frames' timestamps,
      ids and bytes, in logging order. */
  lemma LoggedFileRows(logged: seq<ReceivedMessage>, i: nat)
    requires i < |logged|
    ensures ParseRow(DataRows(LogFile(logged))[i]) ==
      Ok(ReplayEvent(logged[i].timestamp, logged[i].arbitrationId, logged[i].data))
  {
    assert DataRows(LogFile(logged))[i] == FormatRow(logged[i]);
    RowRoundTrip(logged[i]);
  }

  /** `LogReplay`: a loaded recording. */
  datatype LogReplay = LogReplay(path: string, rows: seq<ReplayEvent>)

  /** The constructor: it either returns a replay holding every event of the
      file or raises what loading raised. */
  method NewLogReplay(path: string, file: seq<Row>) returns (r: Result<LogReplay>)
    ensures r.Ok? <==> forall i :: 0 <= i < |DataRows(file)| ==> ParseRow(DataRows(file)[i]).Ok?
    ensures r.Ok? ==> r.value.path == path && |r.value.rows| == |DataRows(file)|
    ensures r.Ok? ==> forall i :: 0 <= i < |r.value.rows| ==> Ok(r.value.rows[i]) == ParseRow(DataRows(file)[i])
  {
    var events := Load(file);
    if events.Err? {
      return Err(events.error);
    }
    r := Ok(LogReplay(path, events.value));
  }

  // ---------------------------------------------------------------------
  // Replay pacing

  /** One item produced by `iter_events`: the argument of the `time.sleep`
      call made just before it (none when the delay is not positive), and
      the frame yielded. */
  datatype Emission = Emission(sleep: Option<real>, message: ReceivedMessage)

  /** The delay computed for event `i` of a pass: its offset from the first
      event of the pass, scaled by the speed. */
  function Offset(rows: seq<ReplayEvent>, speed: real, i: nat): real
    requires i < |rows| && speed != 0.0
  {
    (rows[i].timestamp - rows[0].timestamp) / speed
  }

  function EmissionAt(rows: seq<ReplayEvent>, speed: real, i: nat, now: real): Emission
    requires i < |rows| && speed != 0.0
  {
    var delay := Offset(rows, speed, i);
    Emission(if delay > 0.0 then Some(delay) else None,
             ReceivedMessage(now, rows[i].arbitrationId, rows[i].data, false))
  }

  /** The position of item `k` within its pass of `n` events, that is
      `k mod n`, by repeated subtraction. */
  function PassPosition(k: nat, n: nat): (i: nat)
    requires n > 0
    ensures i < n
  {
    if k < n then k else PassPosition(k - n, n)
  }

  /** The position within the pass is the remainder of `k` by `n`. */
  lemma {:induction false} PassPositionMod(k: nat, n: nat)
    requires n > 0
    ensures PassPosition(k, n) == k % n
  {
    if k >= n {
      PassPositionMod(k - n, n);
      RemainderShift(k - n, n);
    }
  }

  lemma RemainderShift(k: nat, n: nat)
    requires n > 0
    ensures (k + n) % n == k % n
  {
    var q, r := k / n, k % n;
    assert k == q * n + r;
    assert (q + 1) * n == q * n + n;
    RemainderUnique(k + n, n, q + 1, r);
  }

  /** Euclidean division has one remainder. */
  lemma RemainderUnique(a: int, n: int, q: int, r: int)
    requires n > 0 && 0 <= r < n && a == q * n + r
    ensures a % n == r
  {
    var q0, r0 := a / n, a % n;
    assert a == q0 * n + r0;
    assert (q - q0) * n == q * n - q0 * n;
    assert (q0 - q) * n == q0 * n - q * n;
    AtLeastOnce(q - q0, n);
    AtLeastOnce(q0 - q, n);
  }

  lemma {:induction false} AtLeastOnce(x: int, n: int)
    requires n > 0
    ensures x >= 1 ==> x * n >= n
    decreases if x < 0 then 0 else x
  {
    if x > 1 {
      AtLeastOnce(x - 1, n);
      assert x * n == (x - 1) * n + n;
    }
  }

  lemma {:induction false} PassPositionShift(start: nat, i: nat, n: nat)
    requires n > 0 && PassPosition(start, n) == 0 && i < n
    ensures PassPosition(start + i, n) == i
  {
    if start >= n {
      PassPositionShift(start - n, i, n);
    }
  }

  /** Every item of `out` replays the event its position selects. */
  predicate Replayed(rows: seq<ReplayEvent>, speed: real, out: seq<Emission>, clock: nat -> real)
    requires speed != 0.0
  {
    |rows| > 0 ==> forall k {:trigger out[k]} :: 0 <= k < |out| ==> out[k] == EmissionAt(rows, speed, PassPosition(k, |rows|), clock(k))
  }

  lemma {:induction false} ReplayedSnoc(rows: seq<ReplayEvent>, speed: real, out: seq<Emission>, clock: nat -> real, item: Emission)
    requires speed != 0.0 && |rows| > 0 && Replayed(rows, speed, out, clock)
    requires item == EmissionAt(rows, speed, PassPosition(|out|, |rows|), clock(|out|))
    ensures Replayed(rows, speed, out + [item], clock)
  {
    var out' := out + [item];
    assert forall k :: 0 <= k < |out| ==> out'[k] == out[k];
    assert out'[|out|] == item;
  }

  /** `iter_events(speed, loop)`, consumed for up to `demand` items. Item k
      replays event `PassPosition(k, |rows|)`: its id and data are the recorded ones, the
      extended flag is false, and the sleep before it is that event's full
      offset from the first event of the pass, skipped when not positive. So
      the first event of every pass sleeps not at all. Without `loop` at most
      one pass is produced; with `loop` passes repeat for as long as items are
      asked for. */
  method IterEvents(rows: seq<ReplayEvent>, speed: real, loop: bool, demand: nat, clock: nat -> real)
    returns (out: seq<Emission>)
    requires speed != 0.0
    ensures |out| == if loop && |rows| > 0 then demand else Min(demand, |rows|)
    ensures |out| > 0 ==> |rows| > 0
    ensures forall k :: 0 <= k < |out| ==> out[k] == EmissionAt(rows, speed, PassPosition(k, |rows|), clock(k))
    ensures forall k :: 0 <= k < |out| && PassPosition(k, |rows|) == 0 ==> out[k].sleep == None
  {
    out := [];
    var passing := true;
    while passing && |out| < demand
      invariant |out| <= demand
      invariant |rows| == 0 ==> |out| == 0
      invariant |rows| > 0 && passing && |out| < demand ==> PassPosition(|out|, |rows|) == 0
      invariant Replayed(rows, speed, out, clock)
      invariant !loop && passing ==> |out| == 0
      invariant !passing ==> |out| == Min(demand, |rows|) && (!loop || |rows| == 0)
      decreases demand - |out| + (if passing then 1 else 0)
    {
      var start := |out|;
      var base: Option<real> := None;
      var i := 0;
      while i < |rows| && |out| < demand
        invariant 0 <= i <= |rows| && |out| == start + i && |out| <= demand
        invariant base == if i == 0 then None else Some(rows[0].timestamp)
        invariant Replayed(rows, speed, out, clock)
      {
        if base.None? {
          base := Some(rows[i].timestamp);
        }
        var delay := (rows[i].timestamp - base.value) / speed;
        assert base.value == rows[0].timestamp;
        assert delay == Offset(rows, speed, i);
        var slept := if delay > 0.0 then Some(delay) else None;
        PassPositionShift(start, i, |rows|);
        var item := Emission(slept, ReceivedMessage(clock(|out|), rows[i].arbitrationId, rows[i].data, false));
        assert item == EmissionAt(rows, speed, i, clock(|out|));
        ReplayedSnoc(rows, speed, out, clock, item);
        out := out + [item];
        i := i + 1;
      }
      if !loop || |rows| == 0 {
        passing := false;
      }
    }
  }

  /** Total time slept up to and including the sleep before event `i` of a
      pass, as the code paces it: every event sleeps its full offset. */
  function SleptThrough(rows: seq<ReplayEvent>, speed: real, i: nat): real
    requires i < |rows| && speed != 0.0
  {
    var d := Offset(rows, speed, i);
    (if i == 0 then 0.0 else SleptThrough(rows, speed, i - 1)) + (if d > 0.0 then d else 0.0)
  }

  /** The total of the sleeps performed before items `0..i` of `out`. */
  function SleepTotal(out: seq<Emission>, i: nat): real
    requires i < |out|
  {
    (if i == 0 then 0.0 else SleepTotal(out, i - 1)) + (if out[i].sleep.Some? then out[i].sleep.value else 0.0)
  }

  /** In the first pass of `iter_events`, the sleeps before items `0..i`
      add up to `SleptThrough(rows, speed, i)`. */
  lemma {:induction false} FirstPassSleeps(rows: seq<ReplayEvent>, speed: real, out: seq<Emission>,
                                           clock: nat -> real, i: nat)
    requires speed != 0.0 && i < |out| && i < |rows|
    requires forall k :: 0 <= k < |out| ==> out[k] == EmissionAt(rows, speed, PassPosition(k, |rows|), clock(k))
    ensures SleepTotal(out, i) == SleptThrough(rows, speed, i)
  {
    assert out[i] == EmissionAt(rows, speed, i, clock(i));
    if i > 0 {
      FirstPassSleeps(rows, speed, out, clock, i - 1);
    }
  }

  /** The recording of timestamps 0.0, 0.5 and 1.0 replayed at speed 2.0: the
      third event should come 0.5 s after the start but the code has slept
      0.75 s by then. */
  lemma ReplayDriftExample(id: int)
    ensures var rows := [ReplayEvent(0.0, id, []), ReplayEvent(0.5, id, []), ReplayEvent(1.0, id, [])];
      && Offset(rows, 2.0, 2) == 0.5
      && SleptThrough(rows, 2.0, 2) == 0.75
  {
    var rows := [ReplayEvent(0.0, id, []), ReplayEvent(0.5, id, []), ReplayEvent(1.0, id, [])];
    assert Offset(rows, 2.0, 1) == 0.25;
    assert SleptThrough(rows, 2.0, 1) == 0.25;
  }

  /** The intended pacing: before event `i`, sleep only what is still missing
      from its offset since the start of the pass. */
  function PacedSleep(rows: seq<ReplayEvent>, speed: real, i: nat): real
    requires i < |rows| && speed != 0.0
    decreases i, 1
  {
    var missing := Offset(rows, speed, i) - PacedElapsed(rows, speed, i);
    if missing > 0.0 then missing else 0.0
  }

  /** The time slept before the intended pacing reaches event `i`. */
  function PacedElapsed(rows: seq<ReplayEvent>, speed: real, i: nat): real
    requires i < |rows| && speed != 0.0
    decreases i, 0
  {
    if i == 0 then 0.0 else PacedElapsed(rows, speed, i - 1) + PacedSleep(rows, speed, i - 1)
  }

  predicate Chronological(rows: seq<ReplayEvent>)
  {
    forall i, j :: 0 <= i <= j < |rows| ==> rows[i].timestamp <= rows[j].timestamp
  }

  lemma DivideMonotone(a: real, b: real, speed: real)
    requires a <= b && speed > 0.0
    ensures a / speed <= b / speed
  {
    var d := b / speed - a / speed;
    assert d * speed == b - a;
  }

  /** With the intended pacing, a chronological recording replayed at a
      positive speed reaches every event exactly at its scaled offset:
      `(timestamp[i] - timestamp[0]) / speed` after the start of the pass. */
  lemma {:induction false} PacedTiming(rows: seq<ReplayEvent>, speed: real, i: nat)
    requires i < |rows| && speed > 0.0 && Chronological(rows)
    ensures PacedElapsed(rows, speed, i) + PacedSleep(rows, speed, i) == Offset(rows, speed, i)
  {
    if i > 0 {
      PacedTiming(rows, speed, i - 1);
      assert rows[i - 1].timestamp <= rows[i].timestamp;
      DivideMonotone(rows[i - 1].timestamp - rows[0].timestamp, rows[i].timestamp - rows[0].timestamp, speed);
    }
  }
}
