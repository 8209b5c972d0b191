/** Received-frame history and transmit models (core/models.py). */
module Models {
  import opened Base
  import opened Dbc

  /** One row of the receive monitor. */
  datatype RxEntry = RxEntry(
    timestamp: real,
    arbitrationId: int,
    dlc: nat,
    dataHex: string,
    decoded: map<string, real>,
    messageName: Option<string>)

  /** The most entries a buffer built with `limit` can hold: a negative limit
      behaves like zero, because every insertion is popped again. */
  function Capacity(limit: int): nat
  {
    if limit < 0 then 0 else limit
  }

  /** The list after `insert(0, entry)` and, when it is now longer than the
      limit, one `pop()` from the tail. */
  function Pushed(entries: seq<RxEntry>, entry: RxEntry, limit: int): seq<RxEntry>
  {
    var s := [entry] + entries;
    if |s| > limit then s[..|s| - 1] else s
  }

  /** The last `min(|history|, capacity)` entries of `history`, newest first. */
  function Newest(history: seq<RxEntry>, limit: int): (r: seq<RxEntry>)
    ensures |r| == Min(|history|, Capacity(limit))
    ensures forall i :: 0 <= i < |r| ==> r[i] == history[|history| - 1 - i]
  {
    var k := Min(|history|, Capacity(limit));
    seq(k, i requires 0 <= i < k => history[|history| - 1 - i])
  }

  /** The buffer after appending every entry of `history`, oldest first, to an empty buffer. */
  function AppendAll(history: seq<RxEntry>, limit: int): seq<RxEntry>
  {
    if history == [] then [] else Pushed(AppendAll(history[..|history| - 1], limit), history[|history| - 1], limit)
  }

  /** One append keeps the length within the capacity and puts the new entry
      first; below the limit it adds exactly one place and shifts every earlier
      entry by one, and at the limit only the oldest entry is dropped. */
  lemma AppendShape(entries: seq<RxEntry>, entry: RxEntry, limit: int)
    requires |entries| <= Capacity(limit)
    ensures var r := Pushed(entries, entry, limit);
      && |r| <= Capacity(limit)
      && (limit > 0 ==> r[0] == entry)
      && (|entries| < limit ==> |r| == |entries| + 1)
      && (|entries| == limit > 0 ==> |r| == limit)
      && (forall i :: 0 < i < |r| ==> r[i] == entries[i - 1])
  {
  }

  /** Appending to the last entries of a history gives the last entries of the
      history extended by the new one. */
  lemma PushedNewest(history: seq<RxEntry>, entry: RxEntry, limit: int)
    ensures Pushed(Newest(history, limit), entry, limit) == Newest(history + [entry], limit)
  {
    var old_ := Newest(history, limit);
    var r := Pushed(old_, entry, limit);
    var h := history + [entry];
    var expected := Newest(h, limit);
    assert |r| == |expected|;
    forall i | 0 <= i < |r|
      ensures r[i] == expected[i]
    {
      if i > 0 {
        assert r[i] == old_[i - 1] == history[|history| - i];
        assert h[|h| - 1 - i] == history[|history| - i];
      }
    }
  }

  /** After N appends into an empty buffer the contents are exactly the last
      `min(N, limit)` entries, in reverse order of insertion. */
  lemma {:induction false} AppendAllNewest(history: seq<RxEntry>, limit: int)
    ensures AppendAll(history, limit) == Newest(history, limit)
  {
    if history != [] {
      var front := history[..|history| - 1];
      AppendAllNewest(front, limit);
      PushedNewest(front, history[|history| - 1], limit);
      assert front + [history[|history| - 1]] == history;
    }
  }

  /** `RxBuffer`: a bounded, newest-first list of received entries. */
  class RxBuffer {
    const limit: int
    var entries: seq<RxEntry>
    /** Every entry ever appended, oldest first. */
    ghost var history: seq<RxEntry>

    ghost predicate Valid()
      reads this
    {
      entries == Newest(history, limit)
    }

    constructor(limit: int)
      ensures Valid() && this.limit == limit
      ensures entries == [] && history == []
    {
      this.limit := limit;
      entries := [];
      history := [];
    }

    /** `append`: insert at the front, pop the tail once past the limit. */
    method Append(entry: RxEntry)
      requires Valid()
      modifies this
      ensures Valid()
      ensures history == old(history) + [entry]
      ensures entries == Pushed(old(entries), entry, limit)
      ensures |entries| <= Capacity(limit)
    {
      PushedNewest(history, entry, limit);
      entries := [entry] + entries;
      if |entries| > limit {
        entries := entries[..|entries| - 1];
      }
      history := history + [entry];
    }

    /** `entries`: a copy of the list; the buffer is not changed. */
    method Entries() returns (r: seq<RxEntry>)
      requires Valid()
      ensures r == entries
      ensures r == Newest(history, limit)
    {
      r := entries;
    }
  }

  datatype TxSignalValue = TxSignalValue(name: string, value: real)

  /** A transmit-panel model of one message. */
  datatype TxMessageModel = TxMessageModel(
    message: Message,
    signals: map<string, TxSignalValue>,
    periodMs: Option<int>,
    active: bool)

  function SignalNameSet(m: Message): (names: set<string>)
    ensures forall i :: 0 <= i < |m.signals| ==> m.signals[i].name in names
    ensures forall n :: n in names ==> exists i :: 0 <= i < |m.signals| && m.signals[i].name == n
  {
    set i | 0 <= i < |m.signals| :: m.signals[i].name
  }

  /** `TxMessageModel.from_message`: every signal starts at zero, keyed by its
      name, and the model is inactive with no period. */
  function FromMessage(m: Message): (t: TxMessageModel)
    ensures t.message == m && t.periodMs == None && !t.active
    ensures forall i :: 0 <= i < |m.signals| ==> m.signals[i].name in t.signals
    ensures forall n :: n in t.signals ==>
      t.signals[n] == TxSignalValue(n, 0.0) && exists i :: 0 <= i < |m.signals| && m.signals[i].name == n
  {
    TxMessageModel(m, map n | n in SignalNameSet(m) :: TxSignalValue(n, 0.0), None, false)
  }

  /** The name-to-value mapping of the current signal values. */
  function SignalValues(signals: map<string, TxSignalValue>): (v: map<string, real>)
    ensures v.Keys == signals.Keys
    ensures forall n :: n in v ==> v[n] == signals[n].value
  {
    map n | n in signals :: signals[n].value
  }

  /** `TxMessageModel.payload`: the encoder sees exactly the current values. */
  function Payload(t: TxMessageModel): (r: Result<seq<byte>>)
    ensures r == t.message.encode(SignalValues(t.signals))
  {
    t.message.encode(map n | n in t.signals :: t.signals[n].value)
  }

  /** A freshly built model encodes every signal of the message as zero and nothing else. */
  lemma FromMessagePayload(m: Message)
    ensures Payload(FromMessage(m)) == m.encode(map n | n in SignalNameSet(m) :: 0.0)
  {
    var t := FromMessage(m);
    assert SignalValues(t.signals) == map n | n in SignalNameSet(m) :: 0.0;
  }
}
