/** The virtual frame generator (canio/virtual.py): synthesises frames from
    the loaded database for offline use. The worker thread is reduced to its
    flag and one sweep of its loop; `uniform(lo, hi)` is the value
    `random.uniform` draws for those bounds and `clock(k)` the `time.time()`
    reading when the k-th frame of a sweep is built. */
module Virtual {
  import opened Base
  import opened Dbc
  import opened CanBus

  /** The period in seconds for a requested period in milliseconds: anything
      below 10 ms is raised to 10 ms. */
  function PeriodOf(periodMs: int): (seconds: real)
    ensures seconds >= 0.01
    ensures periodMs >= 10 ==> seconds == periodMs as real / 1000.0
    ensures periodMs < 10 ==> seconds == 0.01
  {
    Max(10, periodMs) as real / 1000.0
  }

  /** `set(messages) if messages else None`: no list and an empty list both
      mean "no filter". */
  function FilterOf(messages: Option<seq<string>>): (filter: Option<set<string>>)
    ensures filter.None? <==> messages.None? || messages.value == []
    ensures filter.Some? ==> forall n :: n in filter.value <==> n in messages.value
    ensures filter.Some? ==> filter.value != {}
  {
    if messages.None? || messages.value == [] then None
    else
      var names := set i | 0 <= i < |messages.value| :: messages.value[i];
      assert messages.value[0] in names;
      Some(names)
  }

  /** A message is skipped only when a non-empty filter does not name it. */
  predicate Passes(filter: Option<set<string>>, name: string)
  {
    filter.None? || filter.value == {} || name in filter.value
  }

  /** The messages a sweep emits, in database order. */
  function Selected(messages: seq<Message>, filter: Option<set<string>>): seq<Message>
  {
    if messages == [] then []
    else
      var last := messages[|messages| - 1];
      Selected(messages[..|messages| - 1], filter) + (if Passes(filter, last.name) then [last] else [])
  }

  /** Without a filter every message is emitted. */
  lemma {:induction false} SelectedAll(messages: seq<Message>)
    ensures Selected(messages, None) == messages
  {
    if messages != [] {
      var front, last := messages[..|messages| - 1], messages[|messages| - 1];
      SelectedAll(front);
      assert Selected(messages, None) == Selected(front, None) + [last];
      assert front + [last] == messages;
    }
  }

  /** A single message is emitted exactly when it passes the filter. */
  lemma SelectedOne(m: Message, filter: Option<set<string>>)
    ensures Selected([m], filter) == if Passes(filter, m.name) then [m] else []
  {
  }

  /** The selection of a concatenation is the concatenation of the
      selections: each message is considered once, in database order. */
  lemma {:induction false} SelectedConcat(a: seq<Message>, b: seq<Message>, filter: Option<set<string>>)
    ensures Selected(a + b, filter) == Selected(a, filter) + Selected(b, filter)
    decreases |b|
  {
    if b == [] {
      assert a + b == a;
    } else {
      var front := b[..|b| - 1];
      SelectedConcat(a, front, filter);
      assert (a + b)[..|a + b| - 1] == a + front;
      assert (a + b)[|a + b| - 1] == b[|b| - 1];
    }
  }

  /** With a filter, exactly the messages whose name passes it are emitted. */
  lemma {:induction false} SelectedMembers(messages: seq<Message>, filter: Option<set<string>>)
    ensures forall m :: m in Selected(messages, filter) ==> m in messages && Passes(filter, m.name)
    ensures forall i :: 0 <= i < |messages| && Passes(filter, messages[i].name) ==> messages[i] in Selected(messages, filter)
  {
    if messages != [] {
      var front := messages[..|messages| - 1];
      SelectedMembers(front, filter);
      forall i | 0 <= i < |front| ensures front[i] == messages[i] {}
    }
  }

  /** The bounds handed to `random.uniform` for a signal: an undefined
      minimum is 0 and an undefined maximum is the minimum plus 100. */
  function RandomBounds(s: Signal): (bounds: (real, real))
    ensures s.minimum.Some? ==> bounds.0 == s.minimum.value
    ensures s.minimum.None? ==> bounds.0 == 0.0
    ensures s.maximum.Some? ==> bounds.1 == s.maximum.value
    ensures s.maximum.None? ==> bounds.1 == bounds.0 + 100.0
  {
    var lo := if s.minimum.Some? then s.minimum.value else 0.0;
    (lo, if s.maximum.Some? then s.maximum.value else lo + 100.0)
  }

  /** `self._incrementers.get(name, 0)`. */
  function Counter(counters: map<string, int>, name: string): int
  {
    if name in counters then counters[name] else 0
  }

  /** Every counter lies in `[0, 1000)`. */
  predicate CountersBounded(counters: map<string, int>)
  {
    forall n :: n in counters ==> 0 <= counters[n] < 1000
  }

  /** The signal values of a payload and the counters afterwards. */
  datatype Draft = Draft(payload: map<string, real>, counters: map<string, int>)

  /** The signal loop of `_build_payload` over `signals`, starting from
      `counters`, one signal at a time in order. */
  function PayloadFor(signals: seq<Signal>, counters: map<string, int>, randomize: bool,
                      uniform: (real, real) -> real): Draft
  {
    if signals == [] then Draft(map[], counters)
    else
      var d := PayloadFor(signals[..|signals| - 1], counters, randomize, uniform);
      var s := signals[|signals| - 1];
      if randomize then
        var bounds := RandomBounds(s);
        Draft(d.payload[s.name := uniform(bounds.0, bounds.1)], d.counters)
      else
        var step := Counter(d.counters, s.name);
        Draft(d.payload[s.name := step as real], d.counters[s.name := (step + 1) % 1000])
  }

  /** Names no two signals share. */
  predicate DistinctNames(signals: seq<Signal>)
  {
    forall i, j :: 0 <= i < j < |signals| ==> signals[i].name != signals[j].name
  }

  /** The payload has a key per signal and no other. Random mode leaves the
      counters alone. Counter mode keeps them in `[0, 1000)`, touches only
      signal names, and keeps every other counter. */
  lemma {:induction false} PayloadShape(signals: seq<Signal>, counters: map<string, int>, randomize: bool,
                                        uniform: (real, real) -> real)
    requires CountersBounded(counters)
    ensures var d := PayloadFor(signals, counters, randomize, uniform);
      && (forall n :: n in d.payload <==> exists i :: 0 <= i < |signals| && signals[i].name == n)
      && CountersBounded(d.counters)
      && (randomize ==> d.counters == counters)
      && d.counters.Keys == counters.Keys + (if randomize then {} else d.payload.Keys)
  {
    if signals != [] {
      var front := signals[..|signals| - 1];
      PayloadShape(front, counters, randomize, uniform);
      forall i | 0 <= i < |front| ensures front[i] == signals[i] {}
    }
  }

  /** With distinct signal names, random mode gives each signal the value
      drawn within its bounds, and counter mode gives each signal its current
      counter (0 when it has none) and advances that counter to
      `(step + 1) % 1000`. */
  lemma {:induction false} PayloadValues(signals: seq<Signal>, counters: map<string, int>, randomize: bool,
                                         uniform: (real, real) -> real, i: nat)
    requires DistinctNames(signals) && i < |signals|
    ensures var d := PayloadFor(signals, counters, randomize, uniform);
      var n := signals[i].name;
      && n in d.payload
      && (randomize ==> d.payload[n] == uniform(RandomBounds(signals[i]).0, RandomBounds(signals[i]).1))
      && (!randomize ==> d.payload[n] == Counter(counters, n) as real)
      && (!randomize ==> n in d.counters && d.counters[n] == (Counter(counters, n) + 1) % 1000)
  {
    var front := signals[..|signals| - 1];
    if i < |signals| - 1 {
      assert front[i] == signals[i];
      assert DistinctNames(front) by {
        forall a, b | 0 <= a < b < |front| ensures front[a].name != front[b].name {
          assert front[a] == signals[a] && front[b] == signals[b];
        }
      }
      PayloadValues(front, counters, randomize, uniform, i);
    } else if !randomize {
      CounterUntouched(front, counters, signals[i].name, uniform);
    }
  }

  /** A counter is left alone by a signal loop whose signals all have other names. */
  lemma {:induction false} CounterUntouched(signals: seq<Signal>, counters: map<string, int>, name: string,
                                            uniform: (real, real) -> real)
    requires forall i :: 0 <= i < |signals| ==> signals[i].name != name
    ensures var d := PayloadFor(signals, counters, false, uniform);
      Counter(d.counters, name) == Counter(counters, name)
  {
    if signals != [] {
      CounterUntouched(signals[..|signals| - 1], counters, name, uniform);
    }
  }

  /** The frames of a sweep so far, the counters, and the exception that ended it, if any. */
  datatype Outcome = Outcome(events: seq<ReceivedMessage>, counters: map<string, int>, failure: Option<Error>)

  /** One message of a sweep that has not failed yet: its payload is built
      from the current counters and encoded; a frame is appended, or the
      encoding error ends the sweep. A failed sweep is left as it is. */
  function SweepStep(o: Outcome, m: Message, randomize: bool, uniform: (real, real) -> real,
                     clock: nat -> real): Outcome
  {
    if o.failure.Some? then o
    else
      var d := PayloadFor(m.signals, o.counters, randomize, uniform);
      match m.encode(d.payload)
      case Err(e) => Outcome(o.events, d.counters, Some(e))
      case Ok(data) => Outcome(o.events + [ReceivedMessage(clock(|o.events|), m.frameId, data, m.isExtendedFrame)], d.counters, None)
  }

  /** A sweep over the selected messages: each one's payload is built and
      encoded and the frame handed on; the first encoding failure ends it. */
  function SweepOf(selected: seq<Message>, counters: map<string, int>, randomize: bool,
                   uniform: (real, real) -> real, clock: nat -> real): Outcome
  {
    if selected == [] then Outcome([], counters, None)
    else SweepStep(SweepOf(selected[..|selected| - 1], counters, randomize, uniform, clock),
                   selected[|selected| - 1], randomize, uniform, clock)
  }

  /** Frame k of a sweep is the k-th selected message: its frame id, extended
      flag and encoded payload, stamped with the k-th clock reading. Without
      a failure every selected message gives a frame; a failure stops the
      sweep at the message that failed. */
  lemma {:induction false} SweepFrames(selected: seq<Message>, counters: map<string, int>, randomize: bool,
                                       uniform: (real, real) -> real, clock: nat -> real)
    ensures var o := SweepOf(selected, counters, randomize, uniform, clock);
      && (o.failure.None? ==> |o.events| == |selected|)
      && (o.failure.Some? ==> |o.events| < |selected|)
      && forall k :: 0 <= k < |o.events| ==>
           && o.events[k].arbitrationId == selected[k].frameId
           && o.events[k].isExtendedId == selected[k].isExtendedFrame
           && o.events[k].timestamp == clock(k)
  {
    if selected != [] {
      var front := selected[..|selected| - 1];
      SweepFrames(front, counters, randomize, uniform, clock);
      forall k | 0 <= k < |front| ensures front[k] == selected[k] {}
    }
  }

  /** Counters stay in `[0, 1000)` across a sweep, and random mode does not touch them. */
  lemma {:induction false} SweepCounters(selected: seq<Message>, counters: map<string, int>, randomize: bool,
                                         uniform: (real, real) -> real, clock: nat -> real)
    requires CountersBounded(counters)
    ensures CountersBounded(SweepOf(selected, counters, randomize, uniform, clock).counters)
    ensures randomize ==> SweepOf(selected, counters, randomize, uniform, clock).counters == counters
  {
    if selected != [] {
      var front := selected[..|selected| - 1];
      SweepCounters(front, counters, randomize, uniform, clock);
      var o := SweepOf(front, counters, randomize, uniform, clock);
      PayloadShape(selected[|selected| - 1].signals, o.counters, randomize, uniform);
    }
  }

  /** `VirtualCanGenerator`. */
  class VirtualGenerator {
    const dbc: DbcManager
    var running: bool
    /** Whether a worker thread is attached. */
    var hasThread: bool
    var period: real
    var messageFilter: Option<set<string>>
    /** Counter-mode values by signal name, shared by all messages. */
    var incrementers: map<string, int>
    var randomize: bool

    ghost predicate Valid()
      reads this
    {
      && CountersBounded(incrementers)
      && period >= 0.01
      && (running ==> hasThread)
    }

    constructor(dbc: DbcManager)
      ensures Valid() && this.dbc == dbc
      ensures !running && !hasThread && period == 0.2 && messageFilter == None
      ensures incrementers == map[] && randomize
    {
      this.dbc := dbc;
      running := false;
      hasThread := false;
      period := 0.2;
      messageFilter := None;
      incrementers := map[];
      randomize := true;
    }

    /** `start`: a running generator is stopped first; then the period is
        clamped, the filter and mode are set and a new worker is started.
        The counters are not reset. */
    method Start(periodMs: int, messages: Option<seq<string>>, randomize: bool)
      requires Valid()
      modifies this`running, this`hasThread, this`period, this`messageFilter, this`randomize
      ensures Valid()
      ensures running && hasThread
      ensures period == PeriodOf(periodMs)
      ensures messageFilter == FilterOf(messages)
      ensures this.randomize == randomize
      ensures incrementers == old(incrementers)
    {
      if running {
        Stop();
      }
      period := PeriodOf(periodMs);
      messageFilter := FilterOf(messages);
      this.randomize := randomize;
      running := true;
      hasThread := true;
    }

    /** `stop`: the flag is cleared and the worker dropped, whatever the state before. */
    method Stop()
      requires Valid()
      modifies this`running, this`hasThread
      ensures Valid()
      ensures !running && !hasThread
    {
      running := false;
      hasThread := false;
    }

    /** `_build_payload`: the signal loop, then `message.encode` of the values. */
    method BuildPayload(m: Message, uniform: (real, real) -> real) returns (data: Result<seq<byte>>)
      requires Valid()
      modifies this`incrementers
      ensures Valid()
      ensures var d := PayloadFor(m.signals, old(incrementers), randomize, uniform);
        data == m.encode(d.payload) && incrementers == d.counters
    {
      var payload: map<string, real> := map[];
      var i := 0;
      ghost var start := incrementers;
      while i < |m.signals|
        invariant 0 <= i <= |m.signals|
        invariant Draft(payload, incrementers) == PayloadFor(m.signals[..i], start, randomize, uniform)
      {
        assert m.signals[..i + 1][..i] == m.signals[..i];
        ghost var next := PayloadFor(m.signals[..i + 1], start, randomize, uniform);
        var s := m.signals[i];
        if randomize {
          var bounds := RandomBounds(s);
          payload := payload[s.name := uniform(bounds.0, bounds.1)];
        } else {
          var step := if s.name in incrementers then incrementers[s.name] else 0;
          assert step == Counter(incrementers, s.name);
          payload := payload[s.name := step as real];
          incrementers := incrementers[s.name := (step + 1) % 1000];
        }
        assert Draft(payload, incrementers) == next;
        i := i + 1;
      }
      assert m.signals[..i] == m.signals;
      PayloadShape(m.signals, start, randomize, uniform);
      data := m.encode(payload);
    }

    /** The frame built for one message of a sweep, after the frames `done`:
        its payload is built and encoded and stamped with the next clock
        reading, and an encoding failure is raised. This is one `SweepStep`. */
    method Emit(m: Message, uniform: (real, real) -> real, clock: nat -> real, done: seq<ReceivedMessage>)
      returns (frame: Result<ReceivedMessage>)
      requires Valid()
      modifies this`incrementers
      ensures Valid()
      ensures SweepStep(Outcome(done, old(incrementers), None), m, randomize, uniform, clock)
           == if frame.Err? then Outcome(done, incrementers, Some(frame.error))
              else Outcome(done + [frame.value], incrementers, None)
    {
      var data := BuildPayload(m, uniform);
      if data.Err? {
        return Err(data.error);
      }
      frame := Ok(ReceivedMessage(clock(|done|), m.frameId, data.value, m.isExtendedFrame));
    }

    /** One pass of `_run`'s loop body. A stopped generator and a generator
        without a database emit nothing; otherwise the frames are those of
        `SweepOf` over the messages the filter lets through, in database
        order, and an encoding failure ends the sweep with that error. */
    method Sweep(uniform: (real, real) -> real, clock: nat -> real) returns (events: seq<ReceivedMessage>, status: Result<()>)
      requires Valid()
      modifies this`incrementers
      ensures Valid()
      ensures !running || dbc.loaded.None? ==> events == [] && status == Ok(()) && incrementers == old(incrementers)
      ensures running && dbc.loaded.Some? ==>
        var o := SweepOf(Selected(Messages(dbc.loaded.value), messageFilter), old(incrementers), randomize, uniform, clock);
        && events == o.events
        && incrementers == o.counters
        && (status.Ok? <==> o.failure.None?)
        && (status.Err? ==> o.failure == Some(status.error))
    {
      if !running || dbc.loaded.None? {
        return [], Ok(());
      }
      events, status := SweepMessages(Messages(dbc.loaded.value), uniform, clock);
    }

    /** The `for message in loaded.messages` loop of a sweep. */
    method SweepMessages(msgs: seq<Message>, uniform: (real, real) -> real, clock: nat -> real)
      returns (events: seq<ReceivedMessage>, status: Result<()>)
      requires Valid()
      modifies this`incrementers
      ensures Valid()
      ensures var o := SweepOf(Selected(msgs, messageFilter), old(incrementers), randomize, uniform, clock);
        && events == o.events
        && incrementers == o.counters
        && (status.Ok? <==> o.failure.None?)
        && (status.Err? ==> o.failure == Some(status.error))
    {
      ghost var start := incrementers;
      events := [];
      var i := 0;
      while i < |msgs|
        invariant 0 <= i <= |msgs|
        invariant CountersBounded(incrementers)
        invariant Outcome(events, incrementers, None) == SweepOf(Selected(msgs[..i], messageFilter), start, randomize, uniform, clock)
      {
        var m := msgs[i];
        ghost var before := Outcome(events, incrementers, None);
        SweepNext(msgs, i, messageFilter, start, randomize, uniform, clock, events, incrementers);
        ghost var next := SweepOf(Selected(msgs[..i + 1], messageFilter), start, randomize, uniform, clock);
        if !Passes(messageFilter, m.name) {
          assert next == before;
          i := i + 1;
          continue;
        }
        assert next == SweepStep(before, m, randomize, uniform, clock);
        var frame := Emit(m, uniform, clock, events);
        if frame.Err? {
          SweepStops(msgs, i + 1, messageFilter, start, randomize, uniform, clock);
          return events, Err(frame.error);
        }
        events := events + [frame.value];
        assert next == Outcome(events, incrementers, None);
        i := i + 1;
      }
      assert msgs[..i] == msgs;
      status := Ok(());
    }
  }

  /** One more message in the database: the sweep advances by one step
      exactly when the message passes the filter. */
  lemma SweepAdvance(msgs: seq<Message>, i: nat, filter: Option<set<string>>, counters: map<string, int>,
                     randomize: bool, uniform: (real, real) -> real, clock: nat -> real)
    requires i < |msgs|
    ensures var o := SweepOf(Selected(msgs[..i], filter), counters, randomize, uniform, clock);
      SweepOf(Selected(msgs[..i + 1], filter), counters, randomize, uniform, clock)
        == if Passes(filter, msgs[i].name) then SweepStep(o, msgs[i], randomize, uniform, clock) else o
  {
    assert msgs[..i + 1][..i] == msgs[..i];
    var before := Selected(msgs[..i], filter);
    if Passes(filter, msgs[i].name) {
      assert Selected(msgs[..i + 1], filter) == before + [msgs[i]];
      assert (before + [msgs[i]])[..|before|] == before;
    } else {
      assert Selected(msgs[..i + 1], filter) == before;
    }
  }

  /** `SweepAdvance` from a sweep that has not failed yet. */
  lemma SweepNext(msgs: seq<Message>, i: nat, filter: Option<set<string>>, counters: map<string, int>,
                  randomize: bool, uniform: (real, real) -> real, clock: nat -> real,
                  events: seq<ReceivedMessage>, now: map<string, int>)
    requires i < |msgs|
    requires Outcome(events, now, None) == SweepOf(Selected(msgs[..i], filter), counters, randomize, uniform, clock)
    ensures SweepOf(Selected(msgs[..i + 1], filter), counters, randomize, uniform, clock)
      == if Passes(filter, msgs[i].name) then SweepStep(Outcome(events, now, None), msgs[i], randomize, uniform, clock)
         else Outcome(events, now, None)
  {
    SweepAdvance(msgs, i, filter, counters, randomize, uniform, clock);
  }

  /** Once a sweep has failed, later messages change nothing. */
  lemma {:induction false} SweepStops(msgs: seq<Message>, i: nat, filter: Option<set<string>>, counters: map<string, int>,
                                      randomize: bool, uniform: (real, real) -> real, clock: nat -> real)
    requires i <= |msgs|
    requires SweepOf(Selected(msgs[..i], filter), counters, randomize, uniform, clock).failure.Some?
    ensures SweepOf(Selected(msgs, filter), counters, randomize, uniform, clock)
         == SweepOf(Selected(msgs[..i], filter), counters, randomize, uniform, clock)
    decreases |msgs| - i
  {
    if i < |msgs| {
      assert msgs[..i + 1][..i] == msgs[..i];
      var before := Selected(msgs[..i], filter);
      if Passes(filter, msgs[i].name) {
        assert Selected(msgs[..i + 1], filter) == before + [msgs[i]];
        assert (before + [msgs[i]])[..|before|] == before;
      } else {
        assert Selected(msgs[..i + 1], filter) == before;
      }
      SweepStops(msgs, i + 1, filter, counters, randomize, uniform, clock);
    } else {
      assert msgs[..i] == msgs;
    }
  }
}
