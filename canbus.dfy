/** The bus controller (canio/can_bus.py): the lifecycle of the python-can
    transport and one iteration of the background receive loop. The
    transport is an abstract `Bus` object that records what it is asked to
    do; the listener thread itself is not modelled. */
module CanBus {
  import opened Base
  import opened Config

  /** `ReceivedMessage`: what every frame source hands to the callback. */
  datatype ReceivedMessage = ReceivedMessage(timestamp: real, arbitrationId: int, data: seq<byte>, isExtendedId: bool)

  /** A python-can `Message`, as sent to and received from the transport. */
  datatype CanMessage = CanMessage(arbitrationId: int, data: seq<byte>, isExtendedId: bool)

  /** The registered callback, by identity. */
  datatype Sink = Sink(name: string)

  /** An open python-can `Bus`, seen through the requests it receives. */
  class Bus {
    const kwargs: map<string, Value>
    var sent: seq<CanMessage>
    var isShutdown: bool

    constructor(kwargs: map<string, Value>)
      ensures this.kwargs == kwargs && sent == [] && !isShutdown
    {
      this.kwargs := kwargs;
      sent := [];
      isShutdown := false;
    }

    method Send(m: CanMessage)
      modifies this
      ensures sent == old(sent) + [m] && isShutdown == old(isShutdown)
    {
      sent := sent + [m];
    }

    method Shutdown()
      modifies this
      ensures isShutdown && sent == old(sent)
    {
      isShutdown := true;
    }
  }

  /** `CanBusController`. */
  class CanBusController {
    const config: BusConfig
    var bus: Bus?
    var running: bool
    var callback: Option<Sink>

    /** The controller is running exactly when it holds an open bus. */
    ghost predicate Valid()
      reads this
    {
      running <==> bus != null
    }

    constructor(config: BusConfig)
      ensures Valid() && this.config == config
      ensures bus == null && !running && callback == None
    {
      this.config := config;
      bus := null;
      running := false;
      callback := None;
    }

    /** `is_running`: true exactly when a bus is open. */
    function IsRunning(): (r: bool)
      requires Valid()
      reads this
      ensures r <==> bus != null
    {
      running
    }

    /** `set_callback`. */
    method SetCallback(cb: Sink)
      modifies this`callback
      ensures callback == Some(cb)
    {
      callback := Some(cb);
    }

    /** `start`: `connect` is python-can's verdict on the keyword arguments.
        Already running: nothing happens. Otherwise a failing constructor
        raises before any field is set; a successful one opens a fresh bus
        with `to_kwargs()` and marks the controller running. */
    method Start(connect: map<string, Value> -> Result<()>) returns (status: Result<()>)
      requires Valid()
      modifies this`bus, this`running
      ensures Valid()
      ensures old(running) ==> status == Ok(()) && running && bus == old(bus)
      ensures !old(running) && connect(ToKwargs(config)).Err? ==>
        status == Err(connect(ToKwargs(config)).error) && !running && bus == null
      ensures !old(running) && connect(ToKwargs(config)).Ok? ==>
        && status == Ok(()) && running && bus != null && fresh(bus)
        && bus.kwargs == ToKwargs(config) && bus.sent == [] && !bus.isShutdown
    {
      if running {
        return Ok(());
      }
      var kwargs := ToKwargs(config);
      var outcome := connect(kwargs);
      if outcome.Err? {
        return Err(outcome.error);
      }
      bus := new Bus(kwargs);
      running := true;
      status := Ok(());
    }

    /** `stop`: always leaves the controller stopped with no bus, shutting
        down the bus it held (if any); safe before `start` and when repeated. */
    method Stop()
      requires Valid()
      modifies this`bus, this`running, bus
      ensures Valid() && !running && bus == null
      ensures old(bus) != null ==> old(bus).isShutdown && old(bus).sent == old(bus.sent)
    {
      running := false;
      if bus != null {
        bus.Shutdown();
        bus := null;
      }
    }

    /** `send`: without a bus it raises `RuntimeError`; otherwise the id,
        data and extended flag reach the transport unchanged. */
    method Send(arbitrationId: int, data: seq<byte>, isExtendedId: bool) returns (status: Result<()>)
      requires Valid()
      modifies bus
      ensures bus == old(bus)
      ensures bus == null ==> status == Err(RuntimeError("CAN bus not started"))
      ensures bus != null ==>
        && status == Ok(())
        && bus.sent == old(bus.sent) + [CanMessage(arbitrationId, data, isExtendedId)]
        && bus.isShutdown == old(bus.isShutdown)
    {
      if bus == null {
        return Err(RuntimeError("CAN bus not started"));
      }
      bus.Send(CanMessage(arbitrationId, data, isExtendedId));
      status := Ok(());
    }

    /** One iteration of `_listen`: `frame` is what `recv(timeout=0.1)`
        returned and `now` the clock reading. A frame is delivered once, as
        a copy, to the registered callback; nothing is delivered on a timeout,
        without a callback, or once the loop has been asked to stop. */
    method ListenOnce(frame: Option<CanMessage>, now: real) returns (delivered: Option<(Sink, ReceivedMessage)>)
      ensures delivered.Some? <==> running && frame.Some? && callback.Some?
      ensures delivered.Some? ==>
        delivered.value == (callback.value,
          ReceivedMessage(now, frame.value.arbitrationId, frame.value.data, frame.value.isExtendedId))
    {
      if !running || frame.None? {
        return None;
      }
      var msg := frame.value;
      if callback.Some? {
        var event := ReceivedMessage(now, msg.arbitrationId, msg.data, msg.isExtendedId);
        return Some((callback.value, event));
      }
      delivered := None;
    }
  }
}
