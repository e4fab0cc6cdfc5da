/** The data-update coordinator: it classifies each inbound message, merges
    what it carries into the record it holds, serves the default record
    before any data has arrived, starts and stops its WebSocket task, and
    sends `set` commands over the connection it holds. */
module Coordinator {

  import opened Options
  import opened Json
  import opened PrinterState
  import Creality
  import Moonraker

  /** The two wire formats, told apart by probing keys. */
  datatype Shape = CrealityFlat | MoonrakerNotify | Unrecognized

  /** The Creality probe comes first; only a message that fails it is
      checked for `method == "notify"`. */
  function Classify(msg: Message): (r: Shape)
    ensures r == CrealityFlat <==> "nozzleTemp" in msg || "bedTemp0" in msg || "TotalLayer" in msg
    ensures r == MoonrakerNotify <==>
      r != CrealityFlat && "method" in msg && msg["method"] == Text("notify")
  {
    if Creality.IsCreality(msg) then CrealityFlat
    else if Moonraker.IsNotify(msg) then MoonrakerNotify
    else Unrecognized
  }

  /** The record after handling one message. A Creality fragment is merged
      over the record held (or becomes the record when none is held); a
      notify status is rebuilt into a record and merged only when a record
      is already held; everything else, and any message whose handling
      raises, leaves the record as it was. */
  function Handle(py: Builtins, data: Record, msg: Message): (r: Record)
    ensures forall f :: f in data ==> f in r
  {
    match Classify(msg)
    case CrealityFlat =>
      (match Creality.Fragment(py, msg)
       case None => data
       case Some(fragment) => if data != map[] then data + fragment else fragment)
    case MoonrakerNotify =>
      if data == map[] then data
      else
        (match Moonraker.NotifyStatus(msg)
         case None => data
         case Some(status) =>
           match Moonraker.ProcessPrinterData(status)
           case None => data
           case Some(record) => data + record)
    case Unrecognized => data
  }

  /** The command message sent over the socket. */
  function SetMessage(params: map<string, Value>): Value
  {
    Object(map["method" := Text("set"), "params" := Object(params)])
  }

  /** Only a Creality message, or a notify message arriving when a record is
      already held, can change the record. */
  lemma OnlyRecognisedMessagesChangeState(py: Builtins, data: Record, msg: Message)
    ensures Handle(py, data, msg) != data ==>
      Creality.IsCreality(msg) || (Moonraker.IsNotify(msg) && data != map[])
  {
  }

  /** A Creality message changes exactly the fields it writes: each takes
      its reading, every other field held keeps its value, and with no
      record held the fragment alone becomes the record. */
  lemma CrealityMergeFrame(py: Builtins, data: Record, msg: Message)
    requires Creality.IsCreality(msg) && Creality.Fragment(py, msg).Some?
    ensures var out := Handle(py, data, msg);
      (forall f :: f in out <==> f in data || Creality.Written(msg, f)) &&
      (forall f :: f in data && !Creality.Written(msg, f) ==> out[f] == data[f]) &&
      (forall f :: Creality.Written(msg, f) ==> out[f] == Creality.Reading(py, msg, f).value)
    ensures data == map[] ==> Handle(py, data, msg) == Creality.Fragment(py, msg).value
  {
    Creality.FragmentFields(py, msg);
    forall f | Creality.Written(msg, f)
      ensures Creality.Fragment(py, msg).value[f] == Creality.Reading(py, msg, f).value
    {
      Creality.FragmentAt(py, msg, f);
    }
  }

  /** A Creality message whose conversion raises is discarded whole. */
  lemma CrealityFailureKeepsState(py: Builtins, data: Record, msg: Message)
    requires Creality.IsCreality(msg) && Creality.Fragment(py, msg).None?
    ensures Handle(py, data, msg) == data
  {
  }

  /** A notify message arriving before any record is held is dropped. */
  lemma NotifyNeedsPriorState(py: Builtins, msg: Message)
    requires !Creality.IsCreality(msg)
    ensures Handle(py, map[], msg) == map[]
  {
  }

  /** A notify message that is applied overwrites every field but
      `print_time_remaining` with the rebuilt record, resetting the two extra
      fans and the light; `print_time_remaining` keeps its value. */
  lemma NotifyOverwrites(py: Builtins, data: Record, msg: Message)
    requires !Creality.IsCreality(msg) && Moonraker.IsNotify(msg) && data != map[]
    requires Moonraker.NotifyStatus(msg).Some?
    requires Moonraker.ProcessPrinterData(Moonraker.NotifyStatus(msg).value).Some?
    ensures var record := Moonraker.ProcessPrinterData(Moonraker.NotifyStatus(msg).value).value;
      var out := Handle(py, data, msg);
      (forall f :: f != PrintTimeRemaining ==> f in out && out[f] == record[f]) &&
      (PrintTimeRemaining in out <==> PrintTimeRemaining in data) &&
      (PrintTimeRemaining in data ==> out[PrintTimeRemaining] == data[PrintTimeRemaining])
    ensures var out := Handle(py, data, msg);
      out[AuxiliaryFan] == Whole(0) && out[CaseFan] == Whole(0) && out[LightOn] == Plain(Boolean(false))
  {
  }

  /** With a record held, a notify message is merged exactly when its
      status is `Buildable`, and is otherwise dropped. */
  lemma NotifyApplied(py: Builtins, data: Record, msg: Message)
    requires !Creality.IsCreality(msg) && Moonraker.IsNotify(msg) && data != map[]
    requires Moonraker.NotifyStatus(msg).Some?
    ensures var status := Moonraker.NotifyStatus(msg).value;
      Moonraker.Buildable(status) ==>
        Moonraker.ProcessPrinterData(status).Some? &&
        Handle(py, data, msg) == data + Moonraker.ProcessPrinterData(status).value
    ensures !Moonraker.Buildable(Moonraker.NotifyStatus(msg).value) ==> Handle(py, data, msg) == data
  {
    Moonraker.ProcessedExactly(Moonraker.NotifyStatus(msg).value);
  }

  /** A notify message without `params` reports an idle printer: with a
      record held, state, file name, durations, progress and layers are
      reset, and `print_time_remaining` keeps its value. */
  lemma BareNotifyResets(py: Builtins, data: Record)
    requires data != map[]
    ensures var out := Handle(py, data, map["method" := Text("notify")]);
      (forall f :: f != PrintTimeRemaining ==> f in out) &&
      out[State] == Plain(Text("idle")) && out[Filename] == Plain(Text("")) &&
      out[PrintDuration] == Whole(0) && out[TotalDuration] == Whole(0) &&
      out[Progress] == Whole(0) && out[CurrentLayer] == Whole(0) && out[TotalLayers] == Whole(0)
    ensures var out := Handle(py, data, map["method" := Text("notify")]);
      (PrintTimeRemaining in out <==> PrintTimeRemaining in data) &&
      (PrintTimeRemaining in data ==> out[PrintTimeRemaining] == data[PrintTimeRemaining])
  {
    var msg: Message := map["method" := Text("notify")];
    assert Moonraker.NotifyStatus(msg) == Some(Object(map[]));
    Moonraker.EmptyStatus();
    NotifyMerged(py, data, msg);
    IdleMerge(data, Moonraker.ProcessPrinterData(Object(map[])).value);
  }

  predicate IdleRecord(record: Record)
  {
    (forall f :: f in record <==> f != PrintTimeRemaining) &&
    record[State] == Plain(Text("idle")) && record[Filename] == Plain(Text("")) &&
    record[PrintDuration] == Whole(0) && record[TotalDuration] == Whole(0) &&
    record[Progress] == Whole(0) && record[CurrentLayer] == Whole(0) && record[TotalLayers] == Whole(0)
  }

  lemma IdleMerge(data: Record, record: Record)
    requires IdleRecord(record)
    ensures var out := data + record;
      (forall f :: f != PrintTimeRemaining ==> f in out) &&
      out[State] == Plain(Text("idle")) && out[Filename] == Plain(Text("")) &&
      out[PrintDuration] == Whole(0) && out[TotalDuration] == Whole(0) &&
      out[Progress] == Whole(0) && out[CurrentLayer] == Whole(0) && out[TotalLayers] == Whole(0)
    ensures var out := data + record;
      (PrintTimeRemaining in out <==> PrintTimeRemaining in data) &&
      (PrintTimeRemaining in data ==> out[PrintTimeRemaining] == data[PrintTimeRemaining])
  {
  }

  /** With a record held, a notify status that builds is merged over it. */
  lemma NotifyMerged(py: Builtins, data: Record, msg: Message)
    requires !Creality.IsCreality(msg) && Moonraker.IsNotify(msg) && data != map[]
    requires Moonraker.NotifyStatus(msg).Some?
    requires Moonraker.ProcessPrinterData(Moonraker.NotifyStatus(msg).value).Some?
    ensures Handle(py, data, msg) == data + Moonraker.ProcessPrinterData(Moonraker.NotifyStatus(msg).value).value
  {
    assert Classify(msg) == MoonrakerNotify;
  }

  /** Messages of no known shape leave the record unchanged. */
  lemma UnrecognizedDropped(py: Builtins, data: Record, msg: Message)
    requires Classify(msg) == Unrecognized
    ensures Handle(py, data, msg) == data
  {
  }

  /** Once every field is populated, handling any message keeps every field
      populated. */
  lemma HandleKeepsComplete(py: Builtins, data: Record, msg: Message)
    requires Complete(data)
    ensures Complete(Handle(py, data, msg))
  {
    var out := Handle(py, data, msg);
    forall f | f in out ensures f in AllFields { AllListed(); }
  }

  /** The elapsed and remaining times are never rounded readings: they are
      whole seconds or values passed through from the printer. */
  predicate DurationsExact(r: Record)
  {
    (PrintDuration in r ==> r[PrintDuration].Plain?) &&
    (PrintTimeRemaining in r ==> r[PrintTimeRemaining].Plain?)
  }

  lemma HandleKeepsDurationsExact(py: Builtins, data: Record, msg: Message)
    requires DurationsExact(data)
    ensures DurationsExact(Handle(py, data, msg))
  {
    match Classify(msg)
    case CrealityFlat =>
      if Creality.Fragment(py, msg).Some? {
        var fragment := Creality.Fragment(py, msg).value;
        Creality.FragmentFields(py, msg);
        if "printJobTime" in msg { Creality.FragmentAt(py, msg, PrintDuration); }
        if "printLeftTime" in msg { Creality.FragmentAt(py, msg, PrintTimeRemaining); }
        assert DurationsExact(fragment);
      }
    case MoonrakerNotify =>
      var status := Moonraker.NotifyStatus(msg);
      if data != map[] && status.Some? && Moonraker.ProcessPrinterData(status.value).Some? {
        Moonraker.ProcessedPassThrough(status.value);
      }
    case Unrecognized =>
  }

  /** The WebSocket connection: whether it is open, and what has been
      written to it. */
  class Socket {
    var open: bool
    var sent: seq<Value>

    constructor ()
      ensures open && sent == []
    {
      open := true;
      sent := [];
    }

    /** Writes a message; a closed connection refuses it. */
    method Send(msg: Value) returns (ok: bool)
      modifies this
      ensures open == old(open) && ok == open
      ensures sent == if ok then old(sent) + [msg] else old(sent)
    {
      ok := open;
      if ok {
        sent := sent + [msg];
      }
    }

    method Close()
      modifies this
      ensures !open && sent == old(sent)
    {
      open := false;
    }
  }

  /** The task running the reconnect loop. */
  class LoopTask {
    var cancelled: bool

    constructor ()
      ensures !cancelled
    {
      cancelled := false;
    }

    method Cancel()
      modifies this
      ensures cancelled
    {
      cancelled := true;
    }
  }

  class CrealityCoordinator {
    var data: Record
    var running: bool
    var task: LoopTask?
    var websocket: Socket?

    /** The reconnect task exists exactly while the coordinator runs. */
    ghost predicate Valid()
      reads this
    {
      running == (task != null)
    }

    constructor ()
      ensures Valid() && data == map[] && !running && task == null && websocket == null
    {
      data := map[];
      running := false;
      task := null;
      websocket := null;
    }

    /** The periodic refresh, which stores what `_async_update_data` returns. */
    method Refresh()
      modifies this`data
      ensures old(data) != map[] ==> data == old(data)
      ensures old(data) == map[] ==> data == DefaultRecord()
    {
      data := UpdateData(data);
    }

    /** Starting an already running coordinator does nothing; otherwise it
      marks itself running and launches the reconnect task. */
    method StartWebsocket()
      requires Valid()
      modifies this`running, this`task
      ensures Valid() && running
      ensures old(running) ==> task == old(task)
      ensures !old(running) ==> fresh(task) && !task.cancelled
    {
      if running {
        return;
      }
      running := true;
      task := new LoopTask();
    }

    /** The loop has opened a connection and holds it. */
    method Connected(socket: Socket)
      modifies this`websocket
      ensures websocket == socket
    {
      websocket := socket;
    }

    /** The loop caught a connection or OS error and drops the connection. */
    method ConnectionLost()
      modifies this`websocket
      ensures websocket == null
    {
      websocket := null;
    }

    /** Handles one decoded message: merges a Creality fragment, or a notify
      record when a record is held, and ignores everything else. */
    method HandleMessage(py: Builtins, msg: Message)
      modifies this`data
      ensures data == Handle(py, old(data), msg)
    {
      if Creality.IsCreality(msg) {
        var fragment := Creality.BuildFragment(py, msg);
        if fragment.None? {
          return;
        }
        if data != map[] {
          data := data + fragment.value;
        } else {
          data := fragment.value;
        }
        return;
      }
      if Moonraker.IsNotify(msg) {
        var status := Moonraker.NotifyStatus(msg);
        if status.Some? && data != map[] {
          var record := Moonraker.ProcessPrinterData(status.value);
          if record.Some? {
            data := data + record.value;
          }
        }
      }
    }

    /** Sends `{"method": "set", "params": params}`; refuses (false) when no
      connection is held, and reports whether the write went through. */
    method SendCommand(params: map<string, Value>) returns (ok: bool)
      modifies websocket
      ensures websocket == null ==> !ok
      ensures websocket != null ==>
        websocket.open == old(websocket.open) && ok == websocket.open &&
        websocket.sent == if ok then old(websocket.sent) + [SetMessage(params)] else old(websocket.sent)
    {
      if websocket == null {
        return false;
      }
      ok := websocket.Send(SetMessage(params));
    }

    /** Stops the loop, closes the connection held and cancels the task;
      safe to call when never started and to call twice. */
    method Shutdown()
      requires Valid()
      modifies this`running, this`websocket, this`task, websocket, task
      ensures Valid() && !running && websocket == null && task == null
      ensures old(websocket) != null ==> !old(websocket).open && old(websocket).sent == old(websocket.sent)
      ensures old(task) != null ==> old(task).cancelled
    {
      running := false;
      if websocket != null {
        websocket.Close();
        websocket := null;
      }
      if task != null {
        task.Cancel();
        task := null;
      }
    }
  }

  /** What a caller can rely on while starting a coordinator and sending
      commands. */
  method StartAndSend()
  {
    var c := new CrealityCoordinator();
    c.Refresh();
    assert c.data == DefaultRecord();
    c.StartWebsocket();
    var t := c.task;
    c.StartWebsocket();
    assert c.task == t;
    var ok := c.SendCommand(map["lightSw" := Integer(1)]);
    assert !ok;
    var s := new Socket();
    c.Connected(s);
    ok := c.SendCommand(map["lightSw" := Integer(1)]);
    assert ok && s.sent == [SetMessage(map["lightSw" := Integer(1)])];
  }

  /** What a caller can rely on while a running coordinator handles a
      message and shuts down, twice. */
  method HandleAndShutdown(py: Builtins, msg: Message)
  {
    var c := new CrealityCoordinator();
    c.Refresh();
    c.StartWebsocket();
    var t := c.task;
    var s := new Socket();
    c.Connected(s);
    c.HandleMessage(py, msg);
    HandleKeepsComplete(py, DefaultRecord(), msg);
    assert Complete(c.data);
    c.Shutdown();
    assert !s.open && t.cancelled;
    c.Shutdown();
    assert !c.running && c.task == null && c.websocket == null;
  }
}
