/** The device registry and the request dispatcher of the instrument server.

    `core/__init__.py` keeps a module-level dictionary from device names to driver
    instances, filled by `register_device`, and derives a command table from an
    instance's public methods (`get_public_commands`).  `core/Server.py` turns a decoded
    request into a call: it pops `cmd` and `instr` out of the request, finds the
    device and the command, calls it with the remaining keys as keyword arguments and
    replies with its result, or with 'Operation complete' when it returned None.

    A driver method is modelled by what it returns for the keyword arguments it is
    given (`Op`); its effect on the instrument is the business of the driver modules. */
module Core {
  import opened Python
  import opened Scpi
  import opened Visa

  /** A bound method, called with keyword arguments only. */
  type Op = Kwargs -> Result<Value>

  /** A driver instance: its bound methods as `inspect.getmembers` lists them (name
      order, each name once) and the VISA resource it talks through. */
  datatype Device = Device(members: seq<(string, Op)>, link: Instrument)

  /** What `Server.py` uses as `devices[instr].commands`. */
  function Commands(d: Device): map<string, Op> {
    PublicCommands(d.members)
  }

  // ---------------------------------------------------------------------------
  // get_public_commands
  // ---------------------------------------------------------------------------

  predicate Public(name: string) {
    !StartsWith(name, "_")
  }

  /** The table built by `get_public_commands`, entry by entry. */
  function PublicCommands(members: seq<(string, Op)>): map<string, Op> {
    if members == [] then map[]
    else
      var table := PublicCommands(members[..|members| - 1]);
      var (name, op) := members[|members| - 1];
      if Public(name) then table[name := op] else table
  }

  /** A name is in the table exactly when it is public and some member has it. */
  lemma {:induction false} PublicCommandsNames(members: seq<(string, Op)>, name: string)
    ensures name in PublicCommands(members) <==> Public(name) && exists i :: 0 <= i < |members| && members[i].0 == name
    decreases |members|
  {
    if members != [] {
      var init := members[..|members| - 1];
      PublicCommandsNames(init, name);
      if exists i :: 0 <= i < |members| && members[i].0 == name {
        var i :| 0 <= i < |members| && members[i].0 == name;
        if i < |init| {
          assert init[i].0 == name;
        }
      }
      if exists i :: 0 <= i < |init| && init[i].0 == name {
        var i :| 0 <= i < |init| && init[i].0 == name;
        assert members[i].0 == name;
      }
    }
  }

  /** Each public member is in the table under its own name, with its own method, when
      no name is listed twice (as `inspect.getmembers` guarantees). */
  lemma {:induction false} PublicCommandsEntry(members: seq<(string, Op)>, i: nat)
    requires i < |members| && Public(members[i].0)
    requires forall j, k :: 0 <= j < k < |members| ==> members[j].0 != members[k].0
    ensures members[i].0 in PublicCommands(members) && PublicCommands(members)[members[i].0] == members[i].1
    decreases |members|
  {
    var init := members[..|members| - 1];
    if i < |init| {
      assert init[i] == members[i];
      assert members[i].0 != members[|members| - 1].0;
      PublicCommandsEntry(init, i);
    }
  }

  /** `get_public_commands(instance)` */
  method GetPublicCommands(members: seq<(string, Op)>) returns (commands: map<string, Op>)
    ensures commands == PublicCommands(members)
  {
    commands := map[];
    var i := 0;
    while i < |members|
      invariant 0 <= i <= |members|
      invariant commands == PublicCommands(members[..i])
    {
      var (name, op) := members[i];
      assert members[..i + 1][..i] == members[..i];
      if !StartsWith(name, "_") {
        commands := commands[name := op];
      }
      i := i + 1;
    }
    assert members[..|members|] == members;
  }

  // ---------------------------------------------------------------------------
  // handle_tcp
  // ---------------------------------------------------------------------------

  /** A resolved request: the method to call and the keyword arguments left. */
  datatype Invocation = Invoke(op: Op, kwargs: Kwargs)

  /** The request without `cmd` and `instr`: what `**message_json` passes on. */
  function Forwarded(message: Kwargs): (kw: Kwargs)
    ensures forall k :: k in kw <==> k in message && k != "cmd" && k != "instr"
    ensures forall k :: k in kw ==> kw[k] == message[k]
  {
    message - {"cmd", "instr"}
  }

  /** The lookups of `handle_tcp`, in order: `pop('cmd')`, `pop('instr')`,
      `devices[instr]`, `.commands[cmd]`; a list or a dict used as a key raises
      TypeError. */
  function Resolve(devices: map<string, Device>, message: Kwargs): (r: Result<Invocation>)
    ensures "cmd" !in message ==> r == Err(KeyError(VStr("cmd")))
    ensures "cmd" in message && "instr" !in message ==> r == Err(KeyError(VStr("instr")))
    ensures r.Ok? <==>
              && "cmd" in message && "instr" in message
              && message["instr"].VStr? && message["instr"].s in devices
              && message["cmd"].VStr? && message["cmd"].s in Commands(devices[message["instr"].s])
    ensures r.Ok? ==> r.value == Invoke(Commands(devices[message["instr"].s])[message["cmd"].s], Forwarded(message))
    ensures ("cmd" in message && "instr" in message && Hashable(message["instr"])
             && !(message["instr"].VStr? && message["instr"].s in devices))
            ==> r == Err(KeyError(message["instr"]))
    ensures ("cmd" in message && "instr" in message && message["instr"].VStr? && message["instr"].s in devices
             && Hashable(message["cmd"]) && !(message["cmd"].VStr? && message["cmd"].s in Commands(devices[message["instr"].s])))
            ==> r == Err(KeyError(message["cmd"]))
  {
    if "cmd" !in message then Err(KeyError(VStr("cmd")))
    else if "instr" !in message then Err(KeyError(VStr("instr")))
    else
      var cmd, instr := message["cmd"], message["instr"];
      if !Hashable(instr) then Err(TypeError("unhashable type"))
      else if !(instr.VStr? && instr.s in devices) then Err(KeyError(instr))
      else
        var commands := Commands(devices[instr.s]);
        if !Hashable(cmd) then Err(TypeError("unhashable type"))
        else if !(cmd.VStr? && cmd.s in commands) then Err(KeyError(cmd))
        else Ok(Invoke(commands[cmd.s], Forwarded(message)))
  }

  const OperationComplete := "Operation complete"

  /** The reply to a request.  A request that does not resolve fails with the lookup's
      exception, and no command is called.  Otherwise the reply is 'Operation complete'
      exactly when the command returned None or that very string, any other reply is
      the command's own result, and an exception it raises passes through. */
  function Dispatch(devices: map<string, Device>, message: Kwargs): (r: Result<Value>)
    ensures Resolve(devices, message).Err? ==> r == Err(Resolve(devices, message).error)
    ensures Resolve(devices, message).Ok? ==>
              var call := Resolve(devices, message).value;
              var result := call.op(call.kwargs);
              && (r == Ok(VStr(OperationComplete)) <==> result == Ok(VNull) || result == Ok(VStr(OperationComplete)))
              && (r != Ok(VStr(OperationComplete)) ==> r == result)
              && (r.Ok? <==> result.Ok?)
  {
    var call :- Resolve(devices, message);
    var result := call.op(call.kwargs);
    if result == Ok(VNull) then Ok(VStr(OperationComplete)) else result
  }

  // ---------------------------------------------------------------------------
  // The registry
  // ---------------------------------------------------------------------------

  /** The module-level `devices` dictionary with the functions that use it. */
  class Registry {
    var devices: map<string, Device>

    /** `devices = {}` */
    constructor ()
      ensures devices == map[]
    {
      devices := map[];
    }

    /** `register_device(name, instance)`: identifies the instrument, then stores the
        instance under `name`, replacing any earlier one; when the identification
        raises, nothing is stored. */
    method RegisterDevice(name: string, instance: Device) returns (r: Result<Value>)
      modifies this, instance.link
      ensures instance.link.sent == old(instance.link.sent) + [Logged(Ask("*IDN?"), old(instance.link.timeout))]
      ensures instance.link.replies == Rest(old(instance.link.replies)) && instance.link.timeout == old(instance.link.timeout)
      ensures Next(old(instance.link.replies)).Raise? ==>
                devices == old(devices) && r == Err(VisaIOError(Next(old(instance.link.replies)).message))
      ensures Next(old(instance.link.replies)).Answer? ==>
                && devices == old(devices)[name := instance] && r == Ok(VNull)
                && name in devices && devices[name] == instance
                && (forall other :: other != name ==> (other in devices <==> other in old(devices)))
                && (forall other :: other != name && other in devices ==> devices[other] == old(devices)[other])
    {
      var idn := instance.link.Perform(Ask("*IDN?"));
      if idn.Raise? {
        return Err(VisaIOError(idn.message));
      }
      devices := devices[name := instance];
      r := Ok(VNull);
    }

    /** `handle_tcp(message)`, from the decoded request on: pops the two routing keys
        out of a copy of the request, looks the command up and calls it. */
    method HandleTcp(message: Kwargs) returns (reply: Result<Value>)
      ensures reply == Dispatch(devices, message)
    {
      var rest := message;
      if "cmd" !in rest {
        return Err(KeyError(VStr("cmd")));
      }
      var cmd := rest["cmd"];
      rest := rest - {"cmd"};
      if "instr" !in rest {
        return Err(KeyError(VStr("instr")));
      }
      var instr := rest["instr"];
      rest := rest - {"instr"};
      if !Hashable(instr) {
        return Err(TypeError("unhashable type"));
      }
      if !(instr.VStr? && instr.s in devices) {
        return Err(KeyError(instr));
      }
      var commands := GetPublicCommands(devices[instr.s].members);
      if !Hashable(cmd) {
        return Err(TypeError("unhashable type"));
      }
      if !(cmd.VStr? && cmd.s in commands) {
        return Err(KeyError(cmd));
      }
      assert rest == Forwarded(message);
      var result := commands[cmd.s](rest);
      if result == Ok(VNull) {
        reply := Ok(VStr(OperationComplete));
      } else {
        reply := result;
      }
    }
  }
}
