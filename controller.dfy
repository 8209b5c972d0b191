/** The application controller (app/controller.py): the bookkeeping that
    ties received frames, the database, the logger, the virtual generator
    and the transmit timers together. Windows, dialogs and status messages
    are not modelled; a periodic Qt timer is an entry of the timer registry. */
module Controller {
  import opened Base
  import opened Text
  import opened Config
  import opened Dbc
  import opened Models
  import opened CanBus
  import opened Logger
  import opened Virtual

  /** The `RxEntry` built from a received frame, given what is loaded. */
  function BuildEntry(loaded: Option<LoadedDbc>, m: ReceivedMessage): RxEntry
  {
    var decoded := if loaded.Some? then Decode(loaded.value, m.arbitrationId, m.data) else map[];
    var name :=
      if loaded.Some? && MessageById(loaded.value, m.arbitrationId).Some?
      then Some(MessageById(loaded.value, m.arbitrationId).value.name)
      else None;
    RxEntry(m.timestamp, m.arbitrationId, |m.data|, HexBytes(m.data), decoded, name)
  }

  /** An entry keeps the frame's timestamp and id, its dlc is the payload
      length, and its hex text reads back (split on spaces, each word parsed
      as hex) as the payload. With no database it is undecoded and unnamed;
      with one, it is named exactly when a message has the frame's id, and
      then by that message, and it holds that message's decoding. */
  lemma BuildEntryFields(loaded: Option<LoadedDbc>, m: ReceivedMessage)
    ensures var e := BuildEntry(loaded, m);
      && e.timestamp == m.timestamp && e.arbitrationId == m.arbitrationId
      && e.dlc == |m.data|
      && ParseBytes(Split(e.dataHex)) == Ok(m.data)
      && |e.dataHex| == (if m.data == [] then 0 else 3 * |m.data| - 1)
      && (loaded.None? ==> e.decoded == map[] && e.messageName == None)
      && (loaded.Some? ==>
            var msgs := loaded.value.database.messages;
            && (e.messageName.Some? <==> exists i :: 0 <= i < |msgs| && msgs[i].frameId == m.arbitrationId)
            && (e.messageName.None? ==> e.decoded == map[])
            && (e.messageName.Some? ==>
                  (exists i :: 0 <= i < |msgs| && msgs[i].frameId == m.arbitrationId
                     && msgs[i].name == e.messageName.value && e.decoded == msgs[i].decode(m.data))))
  {
    HexBytesRoundTrip(m.data);
    HexBytesLength(m.data);
    if loaded.Some? {
      var found := MessageById(loaded.value, m.arbitrationId);
      if found.Some? {
        var i :| 0 <= i < |loaded.value.database.messages| && loaded.value.database.messages[i] == found.value
          && found.value.frameId == m.arbitrationId;
        assert loaded.value.database.messages[i].name == BuildEntry(loaded, m).messageName.value;
      }
    }
  }

  /** `{msg.name: TxMessageModel.from_message(msg) for msg in messages}`:
      one model per message name. */
  function TxModels(msgs: seq<Message>): (models: map<string, TxMessageModel>)
    ensures forall i :: 0 <= i < |msgs| ==> msgs[i].name in models
    ensures forall n :: n in models ==> exists i :: 0 <= i < |msgs| && msgs[i].name == n
  {
    if msgs == [] then map[]
    else
      var front := msgs[..|msgs| - 1];
      var last := msgs[|msgs| - 1];
      var r := TxModels(front);
      assert forall i :: 0 <= i < |front| ==> front[i] == msgs[i];
      r[last.name := FromMessage(last)]
  }

  /** Where several messages share a name, the model is built from the last
      of them, as a later dictionary key overrides an earlier one. */
  lemma {:induction false} TxModelsLast(msgs: seq<Message>, i: nat)
    requires i < |msgs|
    requires forall j :: i < j < |msgs| ==> msgs[j].name != msgs[i].name
    ensures TxModels(msgs)[msgs[i].name] == FromMessage(msgs[i])
  {
    if i < |msgs| - 1 {
      var front := msgs[..|msgs| - 1];
      assert front[i] == msgs[i];
      TxModelsLast(front, i);
    }
  }

  /** A transmit timer: which message it sends, with which values, how often. */
  class CyclicTimer {
    const messageName: string
    const signals: map<string, real>
    const intervalMs: int
    var active: bool

    constructor(messageName: string, signals: map<string, real>, intervalMs: int)
      ensures this.messageName == messageName && this.signals == signals && this.intervalMs == intervalMs
      ensures active
    {
      this.messageName := messageName;
      this.signals := signals;
      this.intervalMs := intervalMs;
      active := true;
    }

    method Stop()
      modifies this`active
      ensures !active
    {
      active := false;
    }
  }

  class ApplicationController {
    var settings: WorkspaceSettings
    const dbcManager: DbcManager
    const rxBuffer: RxBuffer
    var logger: SessionLogger?
    const busController: CanBusController
    const virtualGenerator: VirtualGenerator
    var cyclicTimers: map<string, CyclicTimer>

    /** The parts are consistent, the generator reads the controller's
        database, and an attached logger is open. */
    ghost predicate Valid()
      reads this, rxBuffer, busController, virtualGenerator, logger
    {
      && rxBuffer.Valid()
      && busController.Valid()
      && virtualGenerator.Valid()
      && virtualGenerator.dbc == dbcManager
      && (logger != null ==> logger.Valid() && !logger.closed)
    }

    /** `__init__`: the receive buffer holds 2000 entries, the bus controller
        is built from the saved bus settings and reports to this controller,
        and the last database is reloaded when its path is non-empty.
        `loadFile` is the DBC parser. */
    constructor(settings: WorkspaceSettings, loadFile: string -> Result<Database>)
      ensures Valid()
      ensures rxBuffer.limit == 2000 && rxBuffer.history == []
      ensures busController.config == settings.bus && busController.bus == null
      ensures busController.callback == Some(Sink("on_message_received"))
      ensures logger == null && cyclicTimers == map[] && !virtualGenerator.running
      ensures this.settings == settings
      ensures settings.lastDbc.None? || settings.lastDbc.value == [] ==> dbcManager.loaded == None
      ensures settings.lastDbc.Some? && settings.lastDbc.value != [] && loadFile(settings.lastDbc.value).Err? ==>
        dbcManager.loaded == None
      ensures settings.lastDbc.Some? && settings.lastDbc.value != [] && loadFile(settings.lastDbc.value).Ok? ==>
        dbcManager.loaded == Some(LoadedDbc(settings.lastDbc.value, loadFile(settings.lastDbc.value).value))
    {
      this.settings := settings;
      var dbc := new DbcManager();
      dbcManager := dbc;
      rxBuffer := new RxBuffer(2000);
      logger := null;
      busController := new CanBusController(settings.bus);
      virtualGenerator := new VirtualGenerator(dbc);
      cyclicTimers := map[];
      new;
      busController.SetCallback(Sink("on_message_received"));
      if settings.lastDbc.Some? && settings.lastDbc.value != [] {
        var _ := LoadDbc(settings.lastDbc.value, loadFile);
      }
    }

    /** `_load_dbc`: a parse failure changes nothing (it is only reported);
        success loads the database, records its path as the last one, and
        yields a transmit model per message name. */
    method LoadDbc(path: string, loadFile: string -> Result<Database>) returns (models: Option<map<string, TxMessageModel>>)
      requires Valid()
      modifies dbcManager, this`settings
      ensures Valid()
      ensures loadFile(path).Err? ==> models == None && dbcManager.loaded == old(dbcManager.loaded) && settings == old(settings)
      ensures loadFile(path).Ok? ==>
        && dbcManager.loaded == Some(LoadedDbc(path, loadFile(path).value))
        && settings == old(settings).(lastDbc := Some(path))
        && models == Some(TxModels(loadFile(path).value.messages))
    {
      var r := dbcManager.Load(path, loadFile);
      if r.Err? {
        return None;
      }
      settings := settings.(lastDbc := Some(path));
      models := Some(TxModels(Messages(r.value)));
    }

    /** `_unload_dbc`: nothing is loaded and the generator is stopped. */
    method UnloadDbc()
      requires Valid()
      modifies dbcManager, virtualGenerator`running, virtualGenerator`hasThread
      ensures Valid()
      ensures dbcManager.loaded == None && !virtualGenerator.running && !virtualGenerator.hasThread
    {
      dbcManager.Unload();
      StopVirtual();
    }

    /** `_connect_bus`: the bus controller is started; a transport failure
        is only reported, so the controller stays stopped. */
    method ConnectBus(connect: map<string, Value> -> Result<()>) returns (status: Result<()>)
      requires Valid()
      modifies busController`bus, busController`running
      ensures Valid()
      ensures old(busController.running) ==> status == Ok(()) && busController.bus == old(busController.bus)
      ensures !old(busController.running) ==>
        && (status.Ok? <==> connect(ToKwargs(busController.config)).Ok?)
        && (status.Ok? <==> busController.running)
    {
      status := busController.Start(connect);
    }

    /** `_disconnect_bus`: the bus controller is stopped, and its bus shut down. */
    method DisconnectBus()
      requires Valid()
      modifies busController`bus, busController`running, busController.bus
      ensures Valid()
      ensures !busController.running && busController.bus == null
      ensures old(busController.bus) != null ==> old(busController.bus).isShutdown
    {
      busController.Stop();
    }

    /** `on_message_received`: the frame is appended to the receive buffer
        exactly once, and logged exactly when a logger is attached. */
    method OnMessageReceived(m: ReceivedMessage)
      requires Valid()
      modifies rxBuffer, logger
      ensures Valid()
      ensures rxBuffer.history == old(rxBuffer.history) + [BuildEntry(dbcManager.loaded, m)]
      ensures rxBuffer.entries == Pushed(old(rxBuffer.entries), BuildEntry(dbcManager.loaded, m), rxBuffer.limit)
      ensures logger != null ==> logger.logged == old(logger.logged) + [m] && logger.rows == old(logger.rows) + [FormatRow(m)]
    {
      var entry := BuildEntry(dbcManager.loaded, m);
      rxBuffer.Append(entry);
      if logger != null {
        var _ := logger.Log(m);
      }
    }

    /** `_start_virtual`: without a database nothing is started; otherwise
        the generator starts with the requested period, names and mode. */
    method StartVirtual(periodMs: int, messages: seq<string>, randomize: bool)
      requires Valid()
      modifies virtualGenerator
      ensures Valid()
      ensures dbcManager.loaded.None? ==> unchanged(virtualGenerator)
      ensures dbcManager.loaded.Some? ==>
        && virtualGenerator.running
        && virtualGenerator.period == PeriodOf(periodMs)
        && virtualGenerator.messageFilter == FilterOf(Some(messages))
        && virtualGenerator.randomize == randomize
        && virtualGenerator.incrementers == old(virtualGenerator.incrementers)
    {
      if dbcManager.loaded.None? {
        return;
      }
      virtualGenerator.Start(periodMs, Some(messages), randomize);
    }

    /** `_stop_virtual`. */
    method StopVirtual()
      requires Valid()
      modifies virtualGenerator`running, virtualGenerator`hasThread
      ensures Valid()
      ensures !virtualGenerator.running && !virtualGenerator.hasThread
    {
      virtualGenerator.Stop();
    }

    /** `_start_logging`: a new logger on `path` replaces the attached one,
        which is not closed. */
    method StartLogging(path: string)
      requires Valid()
      modifies this`logger
      ensures Valid()
      ensures logger != null && fresh(logger) && logger.path == path
      ensures logger.rows == [Header(Columns)] && logger.logged == []
      ensures old(logger) != null ==> old(logger).closed == old(logger.closed)
    {
      logger := new SessionLogger(path);
    }

    /** `_stop_logging`: an attached logger is closed, and afterwards no
        logger is attached, also when none was. */
    method StopLogging()
      requires Valid()
      modifies this`logger, logger
      ensures Valid()
      ensures logger == null
      ensures old(logger) != null ==> old(logger).closed && old(logger).rows == old(logger.rows)
    {
      if logger != null {
        logger.Close();
      }
      logger := null;
    }

    /** `_send_once`: without a database nothing is sent. Otherwise the values
        are encoded under the message's name (an unknown name raises there),
        and the frame goes out with that message's frame id and extended flag. */
    method SendOnce(messageName: string, signals: map<string, real>) returns (status: Result<()>)
      requires Valid()
      modifies busController.bus
      ensures Valid()
      ensures busController.bus == old(busController.bus)
      ensures dbcManager.loaded.None? ==>
        status == Ok(()) && (busController.bus != null ==> busController.bus.sent == old(busController.bus.sent))
      ensures dbcManager.loaded.Some? && Encode(dbcManager.loaded.value, messageName, signals).Err? ==>
        && status == Err(Encode(dbcManager.loaded.value, messageName, signals).error)
        && (busController.bus != null ==> busController.bus.sent == old(busController.bus.sent))
      ensures dbcManager.loaded.Some? && Encode(dbcManager.loaded.value, messageName, signals).Ok? ==>
        var msg := MessageByName(dbcManager.loaded.value.database, messageName);
        var data := Encode(dbcManager.loaded.value, messageName, signals).value;
        && msg.Some?
        && (busController.bus == null ==> status == Err(RuntimeError("CAN bus not started")))
        && (busController.bus != null ==>
              status == Ok(())
              && busController.bus.sent == old(busController.bus.sent) + [CanMessage(msg.value.frameId, data, msg.value.isExtendedFrame)])
    {
      var loaded := dbcManager.loaded;
      if loaded.None? {
        return Ok(());
      }
      var data := Encode(loaded.value, messageName, signals);
      if data.Err? {
        return Err(data.error);
      }
      var message := MessageByName(loaded.value.database, messageName);
      assert message.Some?;
      status := busController.Send(message.value.frameId, data.value, message.value.isExtendedFrame);
    }

    /** `_handle_cyclic`. Activating starts a new timer and stores it under
        the name, replacing (without stopping) any timer already there.
        Deactivating removes the name and stops its timer; an unknown name is
        ignored. Other names are untouched either way. */
    method HandleCyclic(messageName: string, signals: map<string, real>, periodMs: int, active: bool)
      modifies this`cyclicTimers, if messageName in cyclicTimers then {cyclicTimers[messageName]} else {}
      ensures active ==>
        && cyclicTimers.Keys == old(cyclicTimers).Keys + {messageName}
        && fresh(cyclicTimers[messageName])
        && cyclicTimers[messageName].messageName == messageName
        && cyclicTimers[messageName].signals == signals
        && cyclicTimers[messageName].intervalMs == periodMs
        && cyclicTimers[messageName].active
        && (messageName in old(cyclicTimers) ==> old(cyclicTimers)[messageName].active == old(cyclicTimers[messageName].active))
      ensures !active ==>
        && cyclicTimers == old(cyclicTimers) - {messageName}
        && (messageName in old(cyclicTimers) ==> !old(cyclicTimers)[messageName].active)
      ensures forall n :: n in old(cyclicTimers) && n != messageName ==> n in cyclicTimers && cyclicTimers[n] == old(cyclicTimers)[n]
    {
      if active {
        var timer := new CyclicTimer(messageName, signals, periodMs);
        cyclicTimers := cyclicTimers[messageName := timer];
      } else if messageName in cyclicTimers {
        var timer := cyclicTimers[messageName];
        cyclicTimers := cyclicTimers - {messageName};
        timer.Stop();
      }
    }
  }
}
