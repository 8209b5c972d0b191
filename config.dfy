/** Bus configuration and persisted workspace settings (core/config.py).
    The JSON file is an abstract value: `Load` reads a parsed document (or
    nothing, when the file does not exist) and `Save` produces the document
    that `asdict` hands to the JSON encoder. */
module Config {
  import opened Base

  /** A Python value of the kinds JSON carries: the keyword arguments handed to
      the transport, and the parsed settings document. */
  datatype Value =
    | Null
    | Bool(b: bool)
    | Int(i: int)
    | Real(r: real)
    | Str(s: string)
    | List(items: seq<Value>)
    | Dict(entries: map<string, Value>)

  datatype BusConfig = BusConfig(channel: string, interface: string, bitrate: int, fd: bool)

  /** The dataclass defaults of `BusConfig`. */
  const DefaultBus := BusConfig("vcan0", "virtual", 500000, false)

  /** `BusConfig.to_kwargs`: the python-can `Bus` parameters. */
  function ToKwargs(c: BusConfig): (kwargs: map<string, Value>)
    ensures kwargs.Keys == {"channel", "bustype", "bitrate"} + (if c.fd then {"fd"} else {})
    ensures kwargs["channel"] == Str(c.channel)
    ensures kwargs["bustype"] == Str(c.interface)
    ensures kwargs["bitrate"] == Int(c.bitrate)
    ensures "fd" in kwargs <==> c.fd
    ensures "fd" in kwargs ==> kwargs["fd"] == Bool(true)
  {
    var base := map["channel" := Str(c.channel), "bustype" := Str(c.interface), "bitrate" := Int(c.bitrate)];
    if c.fd then base["fd" := Bool(true)] else base
  }

  datatype WorkspaceSettings = WorkspaceSettings(
    lastDbc: Option<string>,
    bus: BusConfig,
    layoutState: Option<string>,
    txWorkspace: map<string, Value>)

  /** The dataclass defaults of `WorkspaceSettings`. */
  const DefaultSettings := WorkspaceSettings(None, DefaultBus, None, map[])

  const BusFields := {"channel", "interface", "bitrate", "fd"}

  function OptionalText(v: Option<string>): Value
  {
    match v
    case None => Null
    case Some(s) => Str(s)
  }

  /** `asdict(self)`: the document `save` writes. */
  function Save(s: WorkspaceSettings): (doc: Value)
    ensures doc.Dict? && doc.entries.Keys == {"last_dbc", "bus", "layout_state", "tx_workspace"}
    ensures doc.entries["bus"].Dict? && doc.entries["bus"].entries.Keys == BusFields
  {
    Dict(map[
      "last_dbc" := OptionalText(s.lastDbc),
      "bus" := Dict(map[
        "channel" := Str(s.bus.channel),
        "interface" := Str(s.bus.interface),
        "bitrate" := Int(s.bus.bitrate),
        "fd" := Bool(s.bus.fd)]),
      "layout_state" := OptionalText(s.layoutState),
      "tx_workspace" := Dict(s.txWorkspace)])
  }

  // Field readers. A present value of the wrong JSON type is reported as a
  // TypeError here; see README for how this differs from the dataclass.

  function TextField(m: map<string, Value>, key: string, default: string): Result<string>
  {
    if key !in m then Ok(default)
    else match m[key]
      case Str(s) => Ok(s)
      case _ => Err(TypeError(key + " must be a string"))
  }

  function OptionalTextField(m: map<string, Value>, key: string): Result<Option<string>>
  {
    if key !in m then Ok(None)
    else match m[key]
      case Null => Ok(None)
      case Str(s) => Ok(Some(s))
      case _ => Err(TypeError(key + " must be a string or null"))
  }

  /** Every key is a `BusConfig` field and every value has the JSON type of its field. */
  predicate WellTypedBus(m: map<string, Value>)
  {
    && m.Keys <= BusFields
    && ("channel" in m ==> m["channel"].Str?)
    && ("interface" in m ==> m["interface"].Str?)
    && ("bitrate" in m ==> m["bitrate"].Int?)
    && ("fd" in m ==> m["fd"].Bool?)
  }

  /** `BusConfig(**bus_data)`: each field present is taken, each absent one
      keeps its dataclass default; an unknown key (or, here, a value of the
      wrong type) raises `TypeError`. */
  function BusFromDict(m: map<string, Value>): (r: Result<BusConfig>)
    ensures m == map[] ==> r == Ok(DefaultBus)
    ensures !(m.Keys <= BusFields) ==> r.Err? && r.error.TypeError?
    ensures r.Ok? <==> WellTypedBus(m)
    ensures r.Err? ==> r.error.TypeError?
    ensures r.Ok? ==>
      && r.value.channel == (if "channel" in m then m["channel"].s else DefaultBus.channel)
      && r.value.interface == (if "interface" in m then m["interface"].s else DefaultBus.interface)
      && r.value.bitrate == (if "bitrate" in m then m["bitrate"].i else DefaultBus.bitrate)
      && r.value.fd == (if "fd" in m then m["fd"].b else DefaultBus.fd)
  {
    if !(m.Keys <= BusFields) then
      Err(TypeError("BusConfig.__init__() got an unexpected keyword argument"))
    else
      match (TextField(m, "channel", DefaultBus.channel), TextField(m, "interface", DefaultBus.interface))
      case (Err(e), _) => Err(e)
      case (_, Err(e)) => Err(e)
      case (Ok(channel), Ok(interface)) =>
        var bitrate :=
          if "bitrate" !in m then Ok(DefaultBus.bitrate)
          else if m["bitrate"].Int? then Ok(m["bitrate"].i)
          else Err(TypeError("bitrate must be an integer"));
        var fd :=
          if "fd" !in m then Ok(DefaultBus.fd)
          else if m["fd"].Bool? then Ok(m["fd"].b)
          else Err(TypeError("fd must be a boolean"));
        if bitrate.Err? then Err(bitrate.error)
        else if fd.Err? then Err(fd.error)
        else Ok(BusConfig(channel, interface, bitrate.value, fd.value))
  }

  /** A mapping naming only the channel keeps the other three defaults. */
  lemma BusFromDictPartial(channel: string)
    ensures BusFromDict(map["channel" := Str(channel)]) == Ok(BusConfig(channel, "virtual", 500000, false))
  {
    assert WellTypedBus(map["channel" := Str(channel)]);
  }

  /** `WorkspaceSettings.load`: `file` is the parsed document, or `None` when
      the path does not exist. */
  function Load(file: Option<Value>): (r: Result<WorkspaceSettings>)
    ensures file.None? ==> r == Ok(DefaultSettings)
    ensures file.Some? && !file.value.Dict? ==> r.Err? && r.error.AttributeError?
    ensures file == Some(Dict(map[])) ==> r == Ok(DefaultSettings)
    ensures r.Ok? && file.Some? && "bus" !in file.value.entries ==> r.value.bus == DefaultBus
    ensures r.Ok? && file.Some? && "tx_workspace" !in file.value.entries ==> r.value.txWorkspace == map[]
    ensures r.Ok? && file.Some? && "last_dbc" !in file.value.entries ==> r.value.lastDbc == None
  {
    match file
    case None => Ok(DefaultSettings)
    case Some(data) =>
      if !data.Dict? then Err(AttributeError("'get' is not an attribute of a non-dict document"))
      else
        var d := data.entries;
        var busData := if "bus" in d then d["bus"] else Dict(map[]);
        if !busData.Dict? then Err(TypeError("argument after ** must be a mapping"))
        else
          match (OptionalTextField(d, "last_dbc"), BusFromDict(busData.entries), OptionalTextField(d, "layout_state"))
          case (Err(e), _, _) => Err(e)
          case (_, Err(e), _) => Err(e)
          case (_, _, Err(e)) => Err(e)
          case (Ok(lastDbc), Ok(bus), Ok(layout)) =>
            if "tx_workspace" !in d then Ok(WorkspaceSettings(lastDbc, bus, layout, map[]))
            else if d["tx_workspace"].Dict? then Ok(WorkspaceSettings(lastDbc, bus, layout, d["tx_workspace"].entries))
            else Err(TypeError("tx_workspace must be a mapping"))
  }

  /** A settings document whose present fields all have the types `load`
      expects: text or null for the paths, a well-typed field mapping for the
      bus and a mapping for the transmit workspace. Other keys are ignored. */
  predicate WellTypedDocument(d: map<string, Value>)
  {
    && ("last_dbc" in d ==> d["last_dbc"].Null? || d["last_dbc"].Str?)
    && ("layout_state" in d ==> d["layout_state"].Null? || d["layout_state"].Str?)
    && ("bus" in d ==> d["bus"].Dict? && WellTypedBus(d["bus"].entries))
    && ("tx_workspace" in d ==> d["tx_workspace"].Dict?)
  }

  /** The text a present string field holds, none when it is absent or null. */
  function PresentText(d: map<string, Value>, key: string): Option<string>
  {
    if key in d && d[key].Str? then Some(d[key].s) else None
  }

  /** Loading a dict document succeeds exactly when it is well typed, and
      then every field is taken from the document when present and keeps its
      dataclass default when missing. */
  lemma LoadDocument(d: map<string, Value>)
    ensures Load(Some(Dict(d))).Ok? <==> WellTypedDocument(d)
    ensures WellTypedDocument(d) ==>
      var s := Load(Some(Dict(d))).value;
      && s.lastDbc == PresentText(d, "last_dbc")
      && s.layoutState == PresentText(d, "layout_state")
      && s.bus == (if "bus" in d then BusFromDict(d["bus"].entries).value else DefaultBus)
      && s.txWorkspace == (if "tx_workspace" in d then d["tx_workspace"].entries else map[])
  {
    if "bus" in d && d["bus"].Dict? {
      assert BusFromDict(d["bus"].entries).Ok? <==> WellTypedBus(d["bus"].entries);
    }
  }

  /** A document naming only the last DBC loads it with every other default. */
  lemma LoadLastDbcOnly(path: string)
    ensures Load(Some(Dict(map["last_dbc" := Str(path)]))) == Ok(WorkspaceSettings(Some(path), DefaultBus, None, map[]))
  {
    LoadDocument(map["last_dbc" := Str(path)]);
  }

  /** Saving and loading back gives the same settings, so in particular the
      last DBC path and the bus channel and interface survive. */
  lemma SaveLoadRoundTrip(s: WorkspaceSettings)
    ensures Load(Some(Save(s))) == Ok(s)
  {
    var doc := Save(s).entries;
    assert doc["bus"].entries.Keys == BusFields;
    assert BusFromDict(doc["bus"].entries) == Ok(s.bus);
  }
}
