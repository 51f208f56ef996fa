/**
 The Django side of the air-conditioner protocol: its own capability table, the mirror row,
 sending a command with one retry after a version conflict, and accepting a notification.
 */
module AcDjango {
  import opened Prelude
  import opened AcModel
  import opened AcFlash
  import opened AcFirmware

  // ------------------------------------------------------------------
  // Django's protocol table
  // ------------------------------------------------------------------

  function TableBrand(p: Protocol): Brand {
    match p
    case Gree => GreeBrand
    case Midea => MideaBrand
    case Kelon168 => HisenseBrand
    case OtherProtocol(_) => OtherBrand("")
    case _ => HaierBrand
  }

  function TableModels(p: Protocol): seq<Model> {
    match p
    case Gree => [Yaw1f, Ybofb, Yx1fsf]
    case HaierYrw02 => [V9014557A, V9014557B]
    case Haier176 => [V9014557A, V9014557B]
    case Kelon168 => [Dg11r201]
    case OtherProtocol(_) => []
    case _ => [DefaultModel]
  }

  function TableFeatures(p: Protocol): set<Feature> {
    match p
    case Gree => {SwingVertical, SwingHorizontal, Turbo, Sleep, Eco, Light, XFan}
    case HaierAc => {SwingVertical, Sleep}
    case HaierYrw02 => {SwingVertical, SwingHorizontal, Turbo, Sleep, Quiet}
    case Haier160 => {SwingVertical, Turbo, Sleep, Quiet, Light, XFan}
    case Haier176 => {SwingVertical, SwingHorizontal, Turbo, Sleep, Quiet}
    case Midea => {SwingVertical, Turbo, Sleep, Eco, Quiet, Light, XFan}
    case Kelon168 => {SwingVertical, Turbo, Sleep, Light}
    case OtherProtocol(_) => {}
  }

  function TableMaximum(p: Protocol): int {
    if p == Kelon168 then 32 else 30
  }

  // The stored value "default" (or none) stands for the protocol's first model.
  function NormalizeModel(p: Protocol, m: Model): Model {
    if m in TableModels(p) then m
    else if m in {OtherModel(""), DefaultModel} then (if TableModels(p) == [] then OtherModel("") else TableModels(p)[0])
    else m
  }

  predicate ModelSupported(p: Protocol, m: Model) {
    NormalizeModel(p, m) in TableModels(p)
  }

  // The two hand-written tables agree: same features and range, one brand per protocol, same models.
  lemma TablesAgree(p: Protocol)
    requires !p.OtherProtocol?
    ensures CapabilitiesFor(p) == Capabilities(TableFeatures(p), 16, TableMaximum(p))
    ensures forall b: Brand :: SupportedBrand(p, b) <==> b == TableBrand(p)
    ensures forall m: Model :: m != OtherModel("") ==> (SupportedModel(p, m) <==> ModelSupported(p, m))
  {
  }

  // ------------------------------------------------------------------
  // The mirror row and one command
  // ------------------------------------------------------------------

  datatype Row = Row(version: nat, state: AcState)

  // A row that does not exist yet reads as this one.
  const NEW_ROW := Row(0, DEFAULT_STATE)

  // `addressed`: a discovered IP address is stored for the device.
  datatype Remote = Remote(isAc: bool, named: bool, addressed: bool, config: Config)

  datatype Error = NotFound | WrongType | Unconfigured | InvalidState | TimeoutError | NetworkError
    | ControllerError | InvalidResponse | StaleResponse | InvalidSource | AmbiguousDevice

  // What one HTTP exchange with the controller can come to.
  datatype Response = TimedOut | Unreachable | Failed(status: int, olderVersion: bool) | Unparsable
    | Answered(success: bool, report: Report)

  predicate ValuesValid(changes: Patch) {
    && !changes.power.Malformed? && !changes.mode.Malformed? && !changes.fan.Malformed? && !changes.temperature.Malformed?
    && (changes.temperature.Given? ==> 16 <= changes.temperature.value <= 32)
    && (forall f: Feature :: !changes.Feature(f).Malformed?)
  }

  predicate FeaturesOffered(p: Protocol, changes: Patch) {
    forall f: Feature :: changes.Feature(f).Absent? || f in TableFeatures(p)
  }

  predicate Complete(remote: Remote) {
    remote.named && remote.config.brand != OtherBrand("") && remote.config.protocol != OtherProtocol("") &&
    remote.config.model != OtherModel("")
  }

  function CheckRequest(remote: Option<Remote>, changes: Patch): Option<Error> {
    if remote.None? then Some(NotFound)
    else if !remote.value.isAc then Some(WrongType)
    else if !Complete(remote.value) then Some(Unconfigured)
    else if remote.value.config.protocol.OtherProtocol? ||
            !ModelSupported(remote.value.config.protocol, remote.value.config.model) then Some(Unconfigured)
    else if !ValuesValid(changes) || !FeaturesOffered(remote.value.config.protocol, changes) then Some(InvalidState)
    else if !remote.value.addressed then Some(Unconfigured)
    else None
  }

  function CommandFor(config: Config, row: Row, changes: Patch): Command {
    Command(config, changes, Given(row.version + 1))
  }

  predicate IsVersionConflict(r: Response) {
    r.Failed? && r.status == 409 && r.olderVersion
  }

  function Parse(r: Response, config: Config, requireSuccess: bool): Result<Report, Error> {
    match r
    case TimedOut => Err(TimeoutError)
    case Unreachable => Err(NetworkError)
    case Failed(_, _) => Err(ControllerError)
    case Unparsable => Err(InvalidResponse)
    case Answered(success, report) =>
      if requireSuccess && !success then Err(ControllerError)
      else if report.config != config then Err(InvalidResponse)
      else if !(16 <= report.state.temperature <= 32) then Err(InvalidState)
      else Ok(report)
  }

  // The row a response confirms, unless it is older than the row at hand.
  function Confirm(config: Config, row: Row, r: Response, requireSuccess: bool): Result<Row, Error> {
    match Parse(r, config, requireSuccess)
    case Err(e) => Err(e)
    case Ok(report) => if report.version < row.version then Err(StaleResponse) else Ok(Row(report.version, report.state))
  }

  // The whole command, given what the three possible exchanges (first POST, GET, second POST) come to.
  function SetAcState(remote: Option<Remote>, row: Row, changes: Patch,
                      first: Response, current: Response, second: Response): Result<Row, Error> {
    var error := CheckRequest(remote, changes);
    if error.Some? then Err(error.value)
    else if IsVersionConflict(first) then
      match Confirm(remote.value.config, row, current, false)
      case Err(e) => Err(e)
      case Ok(read) => Confirm(remote.value.config, read, second, true)
    else Confirm(remote.value.config, row, first, true)
  }

  // Exactly which command is refused before anything is sent, and why.
  lemma RequestErrorIff(remote: Option<Remote>, changes: Patch)
    ensures
      var error := CheckRequest(remote, changes);
      var ac := remote.Some? && remote.value.isAc;
      var known := ac && remote.value.named && remote.value.config.brand != OtherBrand("")
                   && TableModels(remote.value.config.protocol) != [] && remote.value.config.model != OtherModel("")
                   && (remote.value.config.model == DefaultModel
                       || remote.value.config.model in TableModels(remote.value.config.protocol));
      var fit :=
        && !changes.power.Malformed? && !changes.mode.Malformed? && !changes.fan.Malformed? && !changes.temperature.Malformed?
        && (changes.temperature.Given? ==> 16 <= changes.temperature.value <= 32)
        && (forall f: Feature :: !changes.Feature(f).Malformed?)
        && (known ==>
              forall f: Feature :: changes.Feature(f).Given? ==> f in CapabilitiesFor(remote.value.config.protocol).features);
      && (error == Some(NotFound) <==> remote.None?)
      && (error == Some(WrongType) <==> remote.Some? && !ac)
      && (error == Some(Unconfigured) <==> (ac && !known) || (known && fit && !remote.value.addressed))
      && (error == Some(InvalidState) <==> known && !fit)
      && (error == None <==> known && fit && remote.value.addressed)
  {
    if remote.Some? && !remote.value.config.protocol.OtherProtocol? {
      TablesAgree(remote.value.config.protocol);
    }
  }

  // Exactly what Django makes of one answer, and why.
  lemma ResponseErrorIff(config: Config, row: Row, r: Response, requireSuccess: bool)
    ensures
      var result := Confirm(config, row, r, requireSuccess);
      var confirmed := r.Answered? && (requireSuccess ==> r.success);
      var matching := confirmed && r.report.config == config;
      var plausible := matching && 16 <= r.report.state.temperature <= 32;
      && (result == Err(TimeoutError) <==> r.TimedOut?)
      && (result == Err(NetworkError) <==> r.Unreachable?)
      && (result == Err(ControllerError) <==> r.Failed? || (r.Answered? && !confirmed))
      && (result == Err(InvalidResponse) <==> r.Unparsable? || (confirmed && !matching))
      && (result == Err(InvalidState) <==> matching && !plausible)
      && (result == Err(StaleResponse) <==> plausible && r.report.version < row.version)
      && (result.Ok? <==> plausible && row.version <= r.report.version)
      && (result.Ok? ==> result.value == Row(r.report.version, r.report.state))
  {
  }

  // Exactly how a command ends: refused, by the first answer, or after a version conflict by the read and the second
  // answer.
  lemma CommandEndsIff(remote: Option<Remote>, row: Row, changes: Patch, first: Response, current: Response, second: Response)
    ensures
      var result := SetAcState(remote, row, changes, first, current, second);
      var error := CheckRequest(remote, changes);
      if error.Some? then result == Err(error.value)
      else
        var config := remote.value.config;
        if first == Failed(409, true) then
          var read := Confirm(config, row, current, false);
          if read.Err? then result == read else result == Confirm(config, read.value, second, true)
        else result == Confirm(config, row, first, true)
  {
  }

  // A saved row is never older than the one it replaces and carries the values of the last response.
  lemma SavedRowIsConfirmed(remote: Option<Remote>, row: Row, changes: Patch,
                            first: Response, current: Response, second: Response)
    requires SetAcState(remote, row, changes, first, current, second).Ok?
    ensures
      var saved := SetAcState(remote, row, changes, first, current, second).value;
      var last := if IsVersionConflict(first) then second else first;
      && remote.Some? && last.Answered? && last.success && last.report.config == remote.value.config
      && saved == Row(last.report.version, last.report.state)
      && saved.version >= row.version && 16 <= saved.state.temperature <= 32
      && (IsVersionConflict(first) ==> current.Answered? && row.version <= current.report.version <= saved.version)
  {
  }

  // The body of a notification, as far as it can be read.
  datatype Incoming = NoState | IncompleteState | FullState(state: AcState)
  datatype Payload = Payload(fromEsp32: bool, identified: bool, version: Field<int>, incoming: Incoming, config: Config)

  // The devices that carry the notification's name.
  datatype Lookup = NoDevice | OneDevice(remote: Remote) | SeveralDevices

  // What the firmware puts into a notification.
  function PayloadOf(note: Report): Payload {
    Payload(true, true, Given(note.version), FullState(note.state), note.config)
  }

  datatype Receipt = Receipt(row: Row, applied: bool)

  function AcceptSync(lookup: Lookup, row: Row, note: Payload): Result<Receipt, Error> {
    if !note.fromEsp32 then Err(InvalidSource)
    else if !note.identified then Err(InvalidState)
    else if !note.version.Given? || note.version.value < 0 then Err(InvalidState)
    else if note.incoming.NoState? then Err(InvalidState)
    else if note.incoming.IncompleteState? then Err(InvalidResponse)
    else if !(16 <= note.incoming.state.temperature <= 32) then Err(InvalidState)
    else if lookup.NoDevice? then Err(NotFound)
    else if lookup.SeveralDevices? then Err(AmbiguousDevice)
    else if note.config != lookup.remote.config then Err(InvalidState)
    else if note.version.value < row.version then Ok(Receipt(row, false))
    else Ok(Receipt(Row(note.version.value, note.incoming.state), true))
  }

  // Exactly which notification is applied, skipped or refused, and why.
  lemma NotificationErrorIff(lookup: Lookup, row: Row, note: Payload)
    ensures
      var result := AcceptSync(lookup, row, note);
      var readable := note.identified && note.version.Given? && note.version.value >= 0 && !note.incoming.NoState?;
      var full := note.fromEsp32 && readable && note.incoming.FullState?;
      var plausible := full && 16 <= note.incoming.state.temperature <= 32;
      && (result == Err(InvalidSource) <==> !note.fromEsp32)
      && (result == Err(InvalidResponse) <==> note.fromEsp32 && readable && note.incoming.IncompleteState?)
      && (result == Err(NotFound) <==> plausible && lookup.NoDevice?)
      && (result == Err(AmbiguousDevice) <==> plausible && lookup.SeveralDevices?)
      && (result == Err(InvalidState) <==>
            || (note.fromEsp32 && !readable) || (full && !plausible)
            || (plausible && lookup.OneDevice? && note.config != lookup.remote.config))
      && (result.Ok? <==> plausible && lookup.OneDevice? && note.config == lookup.remote.config)
      && (result.Ok? ==>
            if row.version <= note.version.value
            then result.value == Receipt(Row(note.version.value, note.incoming.state), true)
            else result.value == Receipt(row, false))
  {
  }

  // A controller's own notification is refused exactly for an unknown, ambiguous or differently configured device,
  // and moves the row exactly when it is not older; delivered again, it changes nothing more.
  lemma NotificationOutcome(lookup: Lookup, row: Row, c: Ctrl)
    requires Healthy(c) && c.configured
    ensures
      var result := AcceptSync(lookup, row, PayloadOf(ReportOf(c)));
      && (result.Ok? <==> lookup.OneDevice? && lookup.remote.config == c.config)
      && (result.Ok? ==>
            && (result.value.applied <==> row.version <= c.version)
            && result.value.row.version == (if row.version <= c.version then c.version else row.version)
            && AcceptSync(lookup, result.value.row, PayloadOf(ReportOf(c))).value.row == result.value.row)
  {
    InRangeIsPlausible(c);
  }

  // ------------------------------------------------------------------
  // The same two operations over a stored row and a loaded instance of it
  // ------------------------------------------------------------------

  class Store {
    var row: Row

    constructor ()
      ensures row == NEW_ROW
    {
      row := NEW_ROW;
    }
  }

  // The ORM instance: a private copy of the row that only `Persist` writes back.
  class ACStateInstance {
    var stateVersion: nat
    var state: AcState

    function Fields(): Row
      reads this
    {
      Row(stateVersion, state)
    }

    constructor (store: Store)
      ensures Fields() == store.row
    {
      stateVersion, state := store.row.version, store.row.state;
    }

    method ApplyConfirmedState(report: Report)
      modifies this
      ensures Fields() == Row(report.version, report.state)
    {
      state := report.state;
      stateVersion := report.version;
    }

    method Persist(store: Store)
      modifies store
      ensures store.row == Fields()
    {
      store.row := Row(stateVersion, state);
    }
  }

  method SetAcStateTransaction(store: Store, remote: Option<Remote>, changes: Patch,
                               first: Response, current: Response, second: Response)
    returns (error: Option<Error>)
    modifies store
    ensures error.None? <==> SetAcState(remote, old(store.row), changes, first, current, second).Ok?
    ensures error.None? ==> store.row == SetAcState(remote, old(store.row), changes, first, current, second).value
    ensures error.Some? ==> store.row == old(store.row)
                            && SetAcState(remote, old(store.row), changes, first, current, second) == Err(error.value)
  {
    error := CheckRequest(remote, changes);
    if error.Some? { return; }
    var config := remote.value.config;
    var state := new ACStateInstance(store);
    var response := first;
    if IsVersionConflict(response) {
      var read := Parse(current, config, false);
      if read.Err? { return Some(read.error); }
      if read.value.version < state.stateVersion { return Some(StaleResponse); }
      state.ApplyConfirmedState(read.value);
      response := second;
    }
    var confirmed := Parse(response, config, true);
    if confirmed.Err? { return Some(confirmed.error); }
    if confirmed.value.version < state.stateVersion { return Some(StaleResponse); }
    state.ApplyConfirmedState(confirmed.value);
    state.Persist(store);
  }

  method AcceptSyncTransaction(store: Store, lookup: Lookup, note: Payload) returns (result: Result<bool, Error>)
    modifies store
    ensures
      match AcceptSync(lookup, old(store.row), note)
      case Err(e) => result == Err(e) && store.row == old(store.row)
      case Ok(receipt) => result == Ok(receipt.applied) && store.row == receipt.row
    ensures old(store.row).version <= store.row.version
  {
    if !note.fromEsp32 { return Err(InvalidSource); }
    if !note.identified { return Err(InvalidState); }
    if !note.version.Given? || note.version.value < 0 { return Err(InvalidState); }
    if note.incoming.NoState? { return Err(InvalidState); }
    if note.incoming.IncompleteState? { return Err(InvalidResponse); }
    var incoming, version := note.incoming.state, note.version.value;
    if !(16 <= incoming.temperature <= 32) { return Err(InvalidState); }
    match lookup {
      case NoDevice => return Err(NotFound);
      case SeveralDevices => return Err(AmbiguousDevice);
      case OneDevice(remote) =>
        if note.config != remote.config { return Err(InvalidState); }
    }
    var state := new ACStateInstance(store);
    if version < state.stateVersion { return Ok(false); }
    state.state := incoming;
    state.stateVersion := version;
    state.Persist(store);
    result := Ok(true);
  }

  // ------------------------------------------------------------------
  // A command that nothing disturbs
  // ------------------------------------------------------------------

  function PostResponse(reply: Reply): Response {
    match reply
    case Accepted(report) => Answered(true, report)
    case Rejected(status, stale) => Failed(status, stale)
  }

  function GetResponse(report: Option<Report>): Response {
    if report.Some? then Answered(false, report.value) else Failed(404, false)
  }

  // Django's command against a reachable controller that handles its exchanges back to back.
  function Undisturbed(d: Device, remote: Remote, row: Row, changes: Patch, sent: bool): (Device, Result<Row, Error>)
  {
    var (d1, reply1) := HandlePost(d, CommandFor(remote.config, row, changes), sent, true);
    var first := PostResponse(reply1);
    var current := GetResponse(HandleGet(d1));
    var read := Confirm(remote.config, row, current, false);
    var (d2, reply2) := HandlePost(d1, CommandFor(remote.config, if read.Ok? then read.value else row, changes), sent, true);
    var result := SetAcState(Some(remote), row, changes, first, current, PostResponse(reply2));
    (if IsVersionConflict(first) && read.Ok? then d2 else d1, result)
  }

  // More than one version behind: the first POST is answered with a conflict.
  predicate Behind(c: Ctrl, row: Row) {
    row.version + 1 < c.version
  }

  // The version number the decisive POST carries.
  function DecisiveVersion(c: Ctrl, row: Row): nat {
    if Behind(c, row) then c.version + 1 else row.version + 1
  }

  // What a caller can check beforehand for an undisturbed command to succeed.
  predicate WillSucceed(c: Ctrl, remote: Remote, row: Row, changes: Patch, sent: bool) {
    && remote.config.brand == TableBrand(remote.config.protocol)
    && (changes.temperature.Given? ==> changes.temperature.value <= TableMaximum(remote.config.protocol))
    && (Behind(c, row) ==> c.config == remote.config)
    && DecisiveVersion(c, row) <= UINT32_MAX
    && (NoOp(c, remote.config, changes) || (sent && c.version < UINT32_MAX))
  }

  lemma OfferedIsAcceptable(remote: Remote, changes: Patch)
    requires CheckRequest(Some(remote), changes).None?
    ensures Supported(remote.config) <==> remote.config.brand == TableBrand(remote.config.protocol)
    ensures Acceptable(CapabilitiesFor(remote.config.protocol), changes) <==>
            (changes.temperature.Given? ==> changes.temperature.value <= TableMaximum(remote.config.protocol))
  {
  }

  // One POST: refused, or answered with the state that was asked for.
  lemma PostOutcome(d: Device, remote: Remote, row: Row, changes: Patch, sent: bool)
    requires InStep(d.unit)
    requires CheckRequest(Some(remote), changes).None?
    requires row.version <= d.unit.ram.version
    ensures
      var c := d.unit.ram;
      var command := CommandFor(remote.config, row, changes);
      var (after, reply) := HandlePost(d, command, sent, true);
      && InStep(after.unit)
      && (IsVersionConflict(PostResponse(reply)) <==>
            row.version + 1 <= UINT32_MAX && Supported(remote.config) && row.version + 1 < c.version)
      && (reply.Accepted? <==>
            && row.version + 1 <= UINT32_MAX && Supported(remote.config) && row.version + 1 >= c.version
            && Acceptable(CapabilitiesFor(remote.config.protocol), changes)
            && (NoOp(c, remote.config, changes) || (sent && c.version < UINT32_MAX)))
      && (reply.Accepted? ==>
            && reply.report == ReportOf(after.unit.ram) && reply.report.config == remote.config
            && reply.report.version >= row.version
            && Fulfils(c, remote.config, changes, reply.report.state))
      && (reply.Rejected? ==> after == d)
  {
    var command := CommandFor(remote.config, row, changes);
    if VersionReadable(command) {
      StaysInStep(d.unit, command.config, command.patch, Requested(command), sent);
      ApplyMeaning(d.unit.ram, command.config, command.patch, Requested(command), sent);
    }
  }

  // After a conflict, the read of a controller with the same configuration yields its present row.
  lemma ReadAfterConflict(d: Device, remote: Remote, row: Row)
    requires InStep(d.unit)
    requires d.unit.ram.configured && row.version <= d.unit.ram.version
    ensures
      var c := d.unit.ram;
      Confirm(remote.config, row, GetResponse(HandleGet(d)), false) ==
      if c.config == remote.config then Ok(Row(c.version, c.state)) else Err(InvalidResponse)
  {
    InRangeIsPlausible(d.unit.ram);
  }

  // What is promised of a command that got the answer `result`.
  ghost predicate Promised(c: Ctrl, remote: Remote, changes: Patch, after: Device, result: Result<Row, Error>) {
    && InStep(after.unit)
    && (result.Ok? ==>
          && result.value == Row(after.unit.ram.version, after.unit.ram.state)
          && after.unit.ram.config == remote.config
          && Fulfils(c, remote.config, changes, result.value.state))
  }

  // One POST and what Django makes of it, when it is not behind.
  lemma DecisivePost(d: Device, remote: Remote, row: Row, changes: Patch, sent: bool)
    requires InStep(d.unit)
    requires CheckRequest(Some(remote), changes).None?
    requires row.version <= d.unit.ram.version && !Behind(d.unit.ram, row)
    ensures
      var c := d.unit.ram;
      var (after, reply) := HandlePost(d, CommandFor(remote.config, row, changes), sent, true);
      var result := Confirm(remote.config, row, PostResponse(reply), true);
      && !IsVersionConflict(PostResponse(reply))
      && (result.Ok? <==> WillSucceed(c, remote, row, changes, sent))
      && Promised(c, remote, changes, after, result)
  {
    OfferedIsAcceptable(remote, changes);
    PostOutcome(d, remote, row, changes, sent);
    InRangeIsPlausible(HandlePost(d, CommandFor(remote.config, row, changes), sent, true).0.unit.ram);
  }

  // The exact condition: an undisturbed command succeeds if and only if the brand and temperature suit the
  // protocol, Django is not two or more versions behind a controller that still has another configuration,
  // the version counter is not used up, and the transmitter works or nothing changes. When it succeeds the
  // saved row is the controller's, with exactly the requested fields changed.
  lemma UndisturbedSucceedsIff(d: Device, remote: Remote, row: Row, changes: Patch, sent: bool)
    requires InStep(d.unit)
    requires CheckRequest(Some(remote), changes).None?
    requires row.version <= d.unit.ram.version
    ensures
      var c := d.unit.ram;
      var (after, result) := Undisturbed(d, remote, row, changes, sent);
      && (result.Ok? <==> WillSucceed(c, remote, row, changes, sent))
      && Promised(c, remote, changes, after, result)
  {
    var c := d.unit.ram;
    if Behind(c, row) {
      OfferedIsAcceptable(remote, changes);
      PostOutcome(d, remote, row, changes, sent);
      if Supported(remote.config) {
        ReadAfterConflict(d, remote, row);
        if c.config == remote.config {
          DecisivePost(d, remote, Row(c.version, c.state), changes, sent);
        }
      }
    } else {
      DecisivePost(d, remote, row, changes, sent);
    }
  }

  // Every temperature a controller can hold passes Django's check.
  lemma InRangeIsPlausible(c: Ctrl)
    requires Healthy(c)
    ensures 16 <= c.state.temperature <= 32
  {
  }

  // Why success cannot be promised: after a protocol change in Django, a mirror that is two versions behind
  // reads back the old configuration and gives up, although the controller would accept the command.
  lemma ProtocolChangeCanStrand()
    ensures
      var gree := Config(GreeBrand, Gree, Yaw1f);
      var remote := Remote(true, true, true, Config(MideaBrand, Midea, DefaultModel));
      var changes := Patch(Given(true), Absent, Absent, Absent, map[]);
      var c := Ctrl(true, gree, DEFAULT_STATE, 2);
      var d := Device(Unit(c, Save(c)), None);
      && InStep(d.unit) && CheckRequest(Some(remote), changes).None?
      && Undisturbed(d, remote, NEW_ROW, changes, true).1 == Err(InvalidResponse)
  {
    var gree := Config(GreeBrand, Gree, Yaw1f);
    var remote := Remote(true, true, true, Config(MideaBrand, Midea, DefaultModel));
    var changes := Patch(Given(true), Absent, Absent, Absent, map[]);
    var c := Ctrl(true, gree, DEFAULT_STATE, 2);
    var d := Device(Unit(c, Save(c)), None);
    ReloadRestoresIff(c);
    assert CheckRequest(Some(remote), changes).None?;
    UndisturbedSucceedsIff(d, remote, NEW_ROW, changes, true);
  }
}
