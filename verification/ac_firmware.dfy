/**
 The ESP32 side of the air-conditioner protocol: the controller object with its preferences
 store, and the sketch's request handlers with their single coalesced notification. Each
 method is proved against the pure device functions at the top of the module.
 */
module AcFirmware {
  import opened Prelude
  import opened AcModel
  import opened AcFlash

  // What a reply, a GET answer and a notification carry: the controller's settings, version and state.
  datatype Report = Report(config: Config, version: nat, state: AcState)

  function ReportOf(c: Ctrl): Report {
    Report(c.config, c.version, c.state)
  }

  // The body of a POST to the controller.
  datatype Command = Command(config: Config, patch: Patch, version: Field<int>)

  datatype Reply = Accepted(report: Report) | Rejected(status: int, stale: bool)

  // The running device: controller, flash and the one pending notification body.
  datatype Device = Device(unit: Unit, pending: Option<Report>)

  predicate VersionReadable(command: Command) {
    !command.version.Malformed? && (command.version.Given? ==> 0 <= command.version.value <= UINT32_MAX)
  }

  function Requested(command: Command): Option<nat>
    requires VersionReadable(command)
  {
    if command.version.Given? then Some(command.version.value) else None
  }

  function StatusOf(why: Refusal): int {
    match why
    case StaleVersion => 409
    case Exhausted => 409
    case NotSent => 500
    case _ => 400
  }

  function HandlePost(d: Device, command: Command, sent: bool, callbacks: bool): (Device, Reply) {
    if !VersionReadable(command) then (d, Rejected(400, false))
    else
      var (after, outcome) := ApplyAndPersist(d.unit, command.config, command.patch, Requested(command), sent);
      if outcome.Refused? then (Device(after, d.pending), Rejected(StatusOf(outcome.why), outcome.why == StaleVersion))
      else
        var pending := if after.ram.version != d.unit.ram.version && callbacks then Some(ReportOf(after.ram)) else d.pending;
        (Device(after, pending), Accepted(ReportOf(after.ram)))
  }

  function HandleGet(d: Device): Option<Report> {
    if d.unit.ram.configured then Some(ReportOf(d.unit.ram)) else None
  }

  function PowerCycle(d: Device): Device {
    Device(Boot(d.unit.flash), None)
  }

  predicate Confirmed(status: Option<int>) {
    status.Some? && 200 <= status.value < 300
  }

  function ServiceSync(d: Device, ready: bool, status: Option<int>): Device {
    if d.pending.Some? && ready && Confirmed(status) then d.(pending := None) else d
  }

  // With callbacks on, the pending body is the controller's present state after every handler.
  lemma PendingIsCurrent(d: Device, command: Command, sent: bool)
    requires InStep(d.unit)
    requires d.pending.Some? ==> d.pending.value == ReportOf(d.unit.ram)
    ensures
      var (after, reply) := HandlePost(d, command, sent, true);
      && InStep(after.unit)
      && (after.pending.Some? ==> after.pending.value == ReportOf(after.unit.ram))
      && (after.unit.ram != d.unit.ram ==> after.pending.Some? && reply == Accepted(ReportOf(after.unit.ram)))
      && (after.unit.ram == d.unit.ram ==> after == d)
  {
    if VersionReadable(command) {
      StaysInStep(d.unit, command.config, command.patch, Requested(command), sent);
      ApplyMeaning(d.unit.ram, command.config, command.patch, Requested(command), sent);
    }
  }

  // Exactly what a POST is answered, and that the notification it may leave is the only other trace.
  lemma PostReplyIff(d: Device, command: Command, sent: bool, callbacks: bool)
    ensures
      var (after, reply) := HandlePost(d, command, sent, callbacks);
      var c := d.unit.ram;
      var readable := VersionReadable(command);
      var late := readable && command.version.Given? && command.version.value < c.version;
      var fit := Acceptable(CapabilitiesFor(command.config.protocol), command.patch);
      var asked := readable && Supported(command.config) && !late && fit && !AlreadySo(c, command.config, command.patch);
      && (reply == Rejected(400, false) <==> !readable || !Supported(command.config) || (!late && !fit))
      && (reply == Rejected(409, true) <==> Supported(command.config) && late)
      && (reply == Rejected(409, false) <==> asked && c.version == UINT32_MAX)
      && (reply == Rejected(500, false) <==> asked && c.version != UINT32_MAX && !sent)
      && (reply.Accepted? ==> reply.report == Report(after.unit.ram.config, after.unit.ram.version, after.unit.ram.state))
      && (reply.Rejected? ==>
            after == d && reply in {Rejected(400, false), Rejected(409, true), Rejected(409, false), Rejected(500, false)})
      && (after.pending == if callbacks && after.unit.ram.version != c.version
                           then Some(Report(after.unit.ram.config, after.unit.ram.version, after.unit.ram.state))
                           else d.pending)
  {
    if VersionReadable(command) {
      OutcomeIff(d.unit.ram, command.config, command.patch, Requested(command), sent);
      ApplyMeaning(d.unit.ram, command.config, command.patch, Requested(command), sent);
    }
  }

  // ------------------------------------------------------------------
  // The controller object
  // ------------------------------------------------------------------

  predicate Readable(patch: Patch, f: Feature, supported: bool) {
    patch.Feature(f).Absent? || (supported && patch.Feature(f).Given?)
  }

  lemma AcceptableIsReadable(caps: Capabilities, patch: Patch)
    ensures Acceptable(caps, patch) <==>
            && !patch.power.Malformed? && !patch.mode.Malformed? && !patch.fan.Malformed? && !patch.temperature.Malformed?
            && (patch.temperature.Given? ==> caps.minimum <= patch.temperature.value <= caps.maximum)
            && forall f: Feature :: Readable(patch, f, f in caps.features)
  {
    if Acceptable(caps, patch) {
      assert forall f: Feature :: Readable(patch, f, f in caps.features);
    }
    if forall f: Feature :: Readable(patch, f, f in caps.features) {
      forall f: Feature
        ensures patch.Feature(f).Absent? || (patch.Feature(f).Given? && f in caps.features)
      {
        assert Readable(patch, f, f in caps.features);
      }
    }
  }

  // The order in which the switches are read from a request.
  const WIRE_ORDER := [SwingVertical, SwingHorizontal, Turbo, Sleep, Eco, Quiet, Light, XFan]

  lemma WirePosition(f: Feature) returns (k: nat)
    ensures k < |WIRE_ORDER| && WIRE_ORDER[k] == f
  {
    match f {
      case SwingVertical => k := 0;
      case SwingHorizontal => k := 1;
      case Turbo => k := 2;
      case Sleep => k := 3;
      case Eco => k := 4;
      case Quiet => k := 5;
      case Light => k := 6;
      case XFan => k := 7;
    }
  }

  class Preferences {
    var stored: Flash

    constructor (stored: Flash)
      ensures this.stored == stored
    {
      this.stored := stored;
    }
  }

  // The IR library accepted the state on every output, and there is at least one.
  predicate Keyed(radio: seq<bool>) {
    |radio| > 0 && forall i :: 0 <= i < |radio| ==> radio[i]
  }

  class ACController {
    const outputCount: nat
    const preferences: Preferences
    var configured: bool
    var config: Config
    var state: AcState
    var version: nat

    function Ram(): Ctrl
      reads this
    {
      Ctrl(configured, config, state, version)
    }

    function Contents(): Unit
      reads this, preferences
    {
      Unit(Ram(), preferences.stored)
    }

    // RAM is sound, and exactly what a reboot would restore.
    ghost predicate Valid()
      reads this, preferences
    {
      InStep(Contents())
    }

    constructor (outputCount: nat, preferences: Preferences)
      ensures this.outputCount == outputCount && this.preferences == preferences
      ensures Contents() == Boot(preferences.stored)
      ensures preferences.stored == ERASED ==> Valid()
    {
      this.outputCount := outputCount;
      this.preferences := preferences;
      configured, config, state, version := false, ERASED.Settings(), DEFAULT_STATE, 0;
      new;
      LoadState();
    }

    method LoadState()
      modifies this
      ensures Contents() == Boot(preferences.stored)
    {
      state, version := DEFAULT_STATE, 0;
      config := preferences.stored.Settings();
      configured := Supported(config);
      if !configured || preferences.stored.image.None? { return; }
      var saved := preferences.stored.image.value;
      if saved.schema != SCHEMA || saved.mode > 4 || saved.fan > 3 { return; }
      var caps := CapabilitiesFor(config.protocol);
      if (saved.temperature as int) < caps.minimum || (saved.temperature as int) > caps.maximum { return; }
      state := AcState(saved.power != 0, ModeOf(saved.mode), saved.temperature as int, FanOf(saved.fan),
                       UnpackFlags(saved.flags));
      version := saved.version;
    }

    // Afterwards a reboot restores the present RAM, whatever was stored before.
    method SaveState()
      requires configured && Healthy(Ram())
      modifies preferences
      ensures preferences.stored == Save(Ram())
      ensures Load(preferences.stored) == Ram() && Valid()
    {
      ReloadRestoresIff(Ram());
      var power: uint8 := if state.power then 1 else 0;
      var image := Image(SCHEMA, power, ModeCode(state.mode), state.temperature as uint8, FanCode(state.fan),
                         PackFlags(state.on), version);
      preferences.stored := Flash(config.brand, config.protocol, config.model, Some(image));
    }

    // One optional boolean member of the patch, written into the candidate when it is usable.
    static method ReadBoolean(patch: Patch, f: Feature, supported: bool, on: set<Feature>) returns (ok: bool, merged: set<Feature>)
      ensures ok <==> Readable(patch, f, supported)
      ensures ok ==> merged == if Pick(patch.Feature(f), f in on) then on + {f} else on - {f}
    {
      merged := on;
      if patch.Feature(f).Absent? { return true, on; }
      if !supported { return false, on; }
      if patch.Feature(f).Malformed? { return false, on; }
      ok := true;
      merged := if patch.Feature(f).value then on + {f} else on - {f};
    }

    static method ReadSwitches(patch: Patch, features: set<Feature>, base: set<Feature>) returns (ok: bool, on: set<Feature>)
      ensures ok <==> forall f: Feature :: Readable(patch, f, f in features)
      ensures ok ==> on == MergedFeatures(base, patch)
    {
      ok, on := true, base;
      for i := 0 to |WIRE_ORDER|
        invariant ok
        invariant forall k :: 0 <= k < i ==> Readable(patch, WIRE_ORDER[k], WIRE_ORDER[k] in features)
        invariant forall k :: 0 <= k < i ==> (WIRE_ORDER[k] in on <==> Pick(patch.Feature(WIRE_ORDER[k]), WIRE_ORDER[k] in base))
        invariant forall k :: i <= k < |WIRE_ORDER| ==> (WIRE_ORDER[k] in on <==> WIRE_ORDER[k] in base)
      {
        ok, on := ReadBoolean(patch, WIRE_ORDER[i], WIRE_ORDER[i] in features, on);
        if !ok { return; }
      }
      forall f: Feature
        ensures Readable(patch, f, f in features) && (f in on <==> f in MergedFeatures(base, patch))
      {
        EveryFeature(f);
        var k := WirePosition(f);
      }
    }

    static method ValidateAndMerge(config: Config, patch: Patch, base: AcState) returns (ok: bool, candidate: AcState)
      ensures ok <==> Merge(config, patch, base).Some?
      ensures ok ==> candidate == Merge(config, patch, base).value
    {
      var caps := CapabilitiesFor(config.protocol);
      AcceptableIsReadable(caps, patch);
      candidate := base;
      if patch.power.Malformed? { return false, candidate; }
      candidate := candidate.(power := Pick(patch.power, candidate.power));
      var on;
      ok, on := ReadSwitches(patch, caps.features, candidate.on);
      if !ok { return; }
      candidate := candidate.(on := on);
      if patch.temperature.Malformed? ||
         (patch.temperature.Given? && !(caps.minimum <= patch.temperature.value <= caps.maximum)) { return false, candidate; }
      candidate := candidate.(temperature := Pick(patch.temperature, candidate.temperature));
      if patch.mode.Malformed? { return false, candidate; }
      candidate := candidate.(mode := Pick(patch.mode, candidate.mode));
      if patch.fan.Malformed? { return false, candidate; }
      candidate := candidate.(fan := Pick(patch.fan, candidate.fan));
    }

    // Keys the outputs one after another and stops at the first that the library rejects.
    method SendState(radio: seq<bool>) returns (success: bool, keyed: nat)
      requires |radio| == outputCount
      ensures success <==> Keyed(radio)
      ensures keyed <= outputCount && (success ==> keyed == outputCount)
      ensures forall i :: 0 <= i < keyed - 1 ==> radio[i]
      ensures !success && outputCount > 0 ==> keyed > 0 && !radio[keyed - 1]
    {
      success := outputCount > 0;
      keyed := 0;
      while keyed < outputCount && success
        invariant keyed <= outputCount
        invariant forall i :: 0 <= i < keyed - 1 ==> radio[i]
        invariant success <==> outputCount > 0 && forall i :: 0 <= i < keyed ==> radio[i]
        invariant !success && outputCount > 0 ==> keyed > 0 && !radio[keyed - 1]
      {
        success := radio[keyed];
        keyed := keyed + 1;
      }
    }

    // Sends the candidate, and makes it the state when that succeeds.
    method Commit(config: Config, candidate: AcState, requested: Option<nat>, radio: seq<bool>)
      returns (outcome: Outcome, keyed: nat)
      requires |radio| == outputCount && version < UINT32_MAX && (requested.Some? ==> requested.value <= UINT32_MAX)
      requires Healthy(Ctrl(true, config, candidate, NextVersion(version, requested)))
      modifies this, preferences
      ensures outcome == if Keyed(radio) then Applied else Refused(NotSent)
      ensures Ram() == if Keyed(radio) then Ctrl(true, config, candidate, NextVersion(old(version), requested)) else old(Ram())
      ensures preferences.stored == if Keyed(radio) then Save(Ram()) else old(preferences.stored)
      ensures keyed > 0 <==> outputCount > 0
    {
      var sent;
      sent, keyed := SendState(radio);
      if !sent { return Refused(NotSent), keyed; }
      this.config := config;
      configured := true;
      state := candidate;
      version := version + 1;
      if requested.Some? && requested.value > version { version := requested.value; }
      SaveState();
      outcome := Applied;
    }

    method ApplyPatch(config: Config, patch: Patch, requested: Option<nat>, radio: seq<bool>)
      returns (outcome: Outcome, keyed: nat)
      requires |radio| == outputCount && (requested.Some? ==> requested.value <= UINT32_MAX)
      requires Valid()
      modifies this, preferences
      ensures Valid()
      ensures (Contents(), outcome) == ApplyAndPersist(old(Contents()), config, patch, requested, Keyed(radio))
      ensures !outcome.Refused? ==> configured && this.config == config && Fulfils(old(Ram()), config, patch, state)
      ensures keyed > 0 <==> outputCount > 0 && ReachesTransmitter(old(Ram()), config, patch, requested)
    {
      ApplyMeaning(Ram(), config, patch, requested, Keyed(radio));
      StaysInStep(Contents(), config, patch, requested, Keyed(radio));
      StaysInStep(Contents(), config, patch, requested, true);
      outcome, keyed := Execute(config, patch, requested, radio);
    }

    method Execute(config: Config, patch: Patch, requested: Option<nat>, radio: seq<bool>)
      returns (outcome: Outcome, keyed: nat)
      requires |radio| == outputCount && (requested.Some? ==> requested.value <= UINT32_MAX)
      requires Healthy(Apply(Ram(), config, patch, requested, true).0)
      modifies this, preferences
      ensures (Contents(), outcome) == ApplyAndPersist(old(Contents()), config, patch, requested, Keyed(radio))
      ensures keyed > 0 <==> outputCount > 0 && ReachesTransmitter(old(Ram()), config, patch, requested)
    {
      if !Supported(config) { return Refused(UnsupportedConfig), 0; }
      if requested.Some? && requested.value < version { return Refused(StaleVersion), 0; }
      var configChanged := !configured || this.config != config;
      var ok, candidate := ValidateAndMerge(config, patch, if configChanged then DEFAULT_STATE else state);
      if !ok { return Refused(BadPatch), 0; }
      if !configChanged && candidate == state { return NoChange, 0; }
      if version == UINT32_MAX { return Refused(Exhausted), 0; }
      outcome, keyed := Commit(config, candidate, requested, radio);
    }
  }

  // ------------------------------------------------------------------
  // The sketch
  // ------------------------------------------------------------------

  class Sketch {
    const controller: ACController
    const callbacks: bool
    var pendingACSync: bool
    var pendingACSyncBody: Report

    function Contents(): Device
      reads this, controller, controller.preferences
    {
      Device(controller.Contents(), if pendingACSync then Some(pendingACSyncBody) else None)
    }

    // The controller is sound, and a pending notification is its present report.
    ghost predicate Valid()
      reads this, controller, controller.preferences
    {
      controller.Valid() && (pendingACSync ==> callbacks && pendingACSyncBody == ReportOf(controller.Ram()))
    }

    constructor (controller: ACController, callbacks: bool)
      ensures this.controller == controller && this.callbacks == callbacks
      ensures Contents() == Device(controller.Contents(), None)
    {
      this.controller := controller;
      this.callbacks := callbacks;
      pendingACSync := false;
      pendingACSyncBody := Report(ERASED.Settings(), 0, DEFAULT_STATE);
    }

    // Coalesces: whatever was pending before, afterwards it is the present report, and only one.
    method QueueACStateSync()
      requires controller.Valid() && (pendingACSync ==> callbacks)
      modifies this
      ensures Valid() && (pendingACSync <==> callbacks)
      ensures Contents() == if callbacks then old(Contents()).(pending := Some(ReportOf(controller.Ram()))) else old(Contents())
    {
      if !callbacks { return; }
      pendingACSyncBody := Report(controller.config, controller.version, controller.state);
      pendingACSync := true;
    }

    method HandleSetACState(command: Command, radio: seq<bool>) returns (reply: Reply)
      requires |radio| == controller.outputCount
      requires Valid()
      modifies this, controller, controller.preferences
      ensures Valid()
      ensures controller.Ram() != old(controller.Ram()) && callbacks ==> pendingACSync
      ensures (Contents(), reply) == HandlePost(old(Contents()), command, Keyed(radio), callbacks)
    {
      if command.version.Malformed? { return Rejected(400, false); }
      if command.version.Given? && !(0 <= command.version.value <= UINT32_MAX) { return Rejected(400, false); }
      var previousVersion := controller.version;
      var outcome, _ := controller.ApplyPatch(command.config, command.patch, Requested(command), radio);
      if outcome.Refused? {
        var status := 400;
        if outcome.why == StaleVersion || outcome.why == Exhausted { status := 409; }
        if outcome.why == NotSent { status := 500; }
        return Rejected(status, outcome.why == StaleVersion);
      }
      reply := Accepted(Report(controller.config, controller.version, controller.state));
      if controller.version != previousVersion {
        QueueACStateSync();
      }
    }

    // The answer agrees with a pending notification, and with what a rebooted controller would answer.
    method HandleGetACState() returns (report: Option<Report>)
      requires Valid()
      ensures report.Some? <==> controller.configured
      ensures report.Some? ==> report.value == Report(controller.config, controller.version, controller.state)
      ensures report == HandleGet(Contents()) == HandleGet(PowerCycle(Contents()))
      ensures pendingACSync && report.Some? ==> report.value == pendingACSyncBody
      ensures report.Some? ==> Supported(report.value.config) && InRange(report.value.config, report.value.state)
    {
      if !controller.configured { return None; }
      report := Some(Report(controller.config, controller.version, controller.state));
    }

    // `status` is the HTTP status of the notification POST, or None when it never got an answer.
    method ServiceACStateSync(ready: bool, status: Option<int>)
      requires Valid()
      modifies this
      ensures Valid()
      ensures old(pendingACSync) && !pendingACSync <==>
              old(pendingACSync) && ready && status.Some? && 200 <= status.value < 300
      ensures Contents() == ServiceSync(old(Contents()), ready, status)
    {
      if !pendingACSync || !ready { return; }
      if status.Some? && 200 <= status.value < 300 {
        pendingACSync := false;
      }
    }
  }
}
