/** The signal database and its lifecycle (core/dbc_manager.py).
    The DBC parser and the bit-level codec belong to an external library:
    a message carries its library `encode` and `decode` as uninterpreted
    functions, and parsing a file is a function handed to `Load`. */
module Dbc {
  import opened Base
  import opened Text

  datatype Signal = Signal(name: string, minimum: Option<real>, maximum: Option<real>)

  /** A message definition of the database. `encode` may raise (a value out of
      range, a missing signal); both are the library's business. */
  datatype Message = Message(
    name: string,
    frameId: nat,
    length: nat,
    isExtendedFrame: bool,
    signals: seq<Signal>,
    encode: map<string, real> -> Result<seq<byte>>,
    decode: seq<byte> -> map<string, real>)

  datatype Database = Database(messages: seq<Message>)

  datatype LoadedDbc = LoadedDbc(path: string, database: Database)

  /** The library's lookup by frame id: the first message with that id, none if there is none. */
  function MessageByFrameId(db: Database, id: int): (r: Option<Message>)
    ensures r.None? <==> forall i :: 0 <= i < |db.messages| ==> db.messages[i].frameId != id
    ensures r.Some? ==> exists i :: 0 <= i < |db.messages| && db.messages[i] == r.value && r.value.frameId == id
    decreases |db.messages|
  {
    if db.messages == [] then None
    else if db.messages[0].frameId == id then Some(db.messages[0])
    else
      var r := MessageByFrameId(Database(db.messages[1..]), id);
      assert forall i :: 1 <= i < |db.messages| ==> db.messages[i] == db.messages[1..][i - 1];
      r
  }

  /** The library's lookup by name: the first message with that name, none if there is none. */
  function MessageByName(db: Database, name: string): (r: Option<Message>)
    ensures r.None? <==> forall i :: 0 <= i < |db.messages| ==> db.messages[i].name != name
    ensures r.Some? ==> exists i :: 0 <= i < |db.messages| && db.messages[i] == r.value && r.value.name == name
    decreases |db.messages|
  {
    if db.messages == [] then None
    else if db.messages[0].name == name then Some(db.messages[0])
    else
      var r := MessageByName(Database(db.messages[1..]), name);
      assert forall i :: 1 <= i < |db.messages| ==> db.messages[i] == db.messages[1..][i - 1];
      r
  }

  /** `LoadedDbc.messages`: a copy of the database's messages in database order. */
  function Messages(l: LoadedDbc): (r: seq<Message>)
    ensures |r| == |l.database.messages|
    ensures forall i :: 0 <= i < |r| ==> r[i] == l.database.messages[i]
  {
    l.database.messages
  }

  /** `LoadedDbc.message_by_id`. */
  function MessageById(l: LoadedDbc, id: int): (r: Option<Message>)
    ensures r.Some? ==> r.value.frameId == id
    ensures r.Some? <==> exists i :: 0 <= i < |l.database.messages| && l.database.messages[i].frameId == id
  {
    MessageByFrameId(l.database, id)
  }

  /** `LoadedDbc.decode`: an unknown id decodes to the empty mapping, a known
      one to what the message's own decoder makes of the data. */
  function Decode(l: LoadedDbc, id: int, data: seq<byte>): (r: map<string, real>)
    ensures (forall i :: 0 <= i < |l.database.messages| ==> l.database.messages[i].frameId != id) ==> r == map[]
    ensures MessageById(l, id).Some? ==> r == MessageById(l, id).value.decode(data)
  {
    match MessageById(l, id)
    case None => map[]
    case Some(m) => m.decode(data)
  }

  /** `LoadedDbc.encode`: an unknown name raises `KeyError`, a known one is
      encoded by that message's own encoder. */
  function Encode(l: LoadedDbc, name: string, signals: map<string, real>): (r: Result<seq<byte>>)
    ensures (forall i :: 0 <= i < |l.database.messages| ==> l.database.messages[i].name != name) ==>
      r == Err(KeyError("Message " + name + " not found"))
    ensures MessageByName(l.database, name).Some? ==> r == MessageByName(l.database, name).value.encode(signals)
  {
    match MessageByName(l.database, name)
    case None => Err(KeyError("Message " + name + " not found"))
    case Some(m) => m.encode(signals)
  }

  /** One entry of `describe`: the four strings shown for a message. */
  datatype MessageRecord = MessageRecord(name: string, id: string, dlc: string, signals: string)

  function SignalNames(m: Message): (names: seq<string>)
    ensures |names| == |m.signals|
    ensures forall i :: 0 <= i < |names| ==> names[i] == m.signals[i].name
  {
    seq(|m.signals|, i requires 0 <= i < |m.signals| => m.signals[i].name)
  }

  function DescribeMessage(m: Message): MessageRecord
  {
    MessageRecord(m.name, PyHex(m.frameId), DecimalString(m.length), Join(", ", SignalNames(m)))
  }

  /** The `id` and `dlc` strings of a record read back as the message's frame
      id (with `int(s, 16)`) and length (as a decimal). */
  lemma DescribeMessageReadsBack(m: Message)
    ensures ParseHexInt(DescribeMessage(m).id) == Ok(m.frameId)
    ensures DecimalValue(DescribeMessage(m).dlc) == m.length
  {
    PyHexRoundTrip(m.frameId);
    DecimalRoundTrip(m.length);
  }

  class DbcManager {
    var loaded: Option<LoadedDbc>

    constructor()
      ensures loaded == None
    {
      loaded := None;
    }

    /** `load`: `loadFile` is the library's parser. A parse failure raises
        `DbcLoadError` with the library's message and keeps whatever database
        was loaded before; success replaces it. */
    method Load(path: string, loadFile: string -> Result<Database>) returns (r: Result<LoadedDbc>)
      modifies this
      ensures loadFile(path).Err? ==>
        r == Err(DbcLoadError(ErrorText(loadFile(path).error))) && loaded == old(loaded)
      ensures loadFile(path).Ok? ==>
        loaded == Some(LoadedDbc(path, loadFile(path).value)) && r == Ok(loaded.value)
    {
      var db := loadFile(path);
      if db.Err? {
        return Err(DbcLoadError(ErrorText(db.error)));
      }
      loaded := Some(LoadedDbc(path, db.value));
      r := Ok(loaded.value);
    }

    /** `unload`: afterwards nothing is loaded, whatever the state before, so a
        second call changes nothing. */
    method Unload()
      modifies this
      ensures loaded == None
    {
      loaded := None;
    }

    /** `validate_bitrate`. */
    function ValidateBitrate(bitrate: int): (ok: bool)
      ensures ok <==> bitrate > 0
    {
      bitrate > 0
    }

    /** `describe`: `{}` when nothing is loaded, otherwise `{"messages": ...}`
        with one record per message, in database order. */
    method Describe() returns (r: map<string, seq<MessageRecord>>)
      ensures loaded.None? ==> r == map[]
      ensures loaded.Some? ==>
        var msgs := loaded.value.database.messages;
        && r.Keys == {"messages"}
        && |r["messages"]| == |msgs|
        && forall j :: 0 <= j < |msgs| ==> r["messages"][j] == DescribeMessage(msgs[j])
    {
      if loaded.None? {
        return map[];
      }
      var msgs := Messages(loaded.value);
      var result: seq<MessageRecord> := [];
      var i := 0;
      while i < |msgs|
        invariant 0 <= i <= |msgs|
        invariant |result| == i
        invariant forall j :: 0 <= j < i ==> result[j] == DescribeMessage(msgs[j])
      {
        result := result + [DescribeMessage(msgs[i])];
        i := i + 1;
      }
      r := map["messages" := result];
    }
  }
}
