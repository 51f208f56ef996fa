/**
 The air-conditioner state shared by the ESP32 firmware and by Django, and the pure
 meaning of one command: which patches are acceptable, what they merge to, and when
 the controller transmits, bumps its version or refuses.
 */
module AcModel {
  import opened Prelude

  const UINT32_MAX: nat := 0xFFFF_FFFF

  datatype Mode = Auto | Cool | Heat | Dry | FanOnly
  datatype FanSpeed = AutoSpeed | LowSpeed | MediumSpeed | HighSpeed
  datatype Feature = SwingVertical | SwingHorizontal | Turbo | Sleep | Eco | Quiet | Light | XFan

  // The three configuration strings, folded to lower case.
  datatype Brand = GreeBrand | HaierBrand | MideaBrand | HisenseBrand | OtherBrand(name: string)
  datatype Protocol = Gree | HaierAc | HaierYrw02 | Haier160 | Haier176 | Midea | Kelon168 | OtherProtocol(name: string)
  datatype Model = DefaultModel | Yaw1f | Ybofb | Yx1fsf | V9014557A | V9014557B | Dg11r201 | OtherModel(name: string)
  datatype Config = Config(brand: Brand, protocol: Protocol, model: Model)

  type Celsius = t: int | 0 <= t < 256 witness 24

  // The eight switchable features are the set of those that are on.
  datatype AcState = AcState(power: bool, mode: Mode, temperature: Celsius, fan: FanSpeed, on: set<Feature>)

  const DEFAULT_STATE := AcState(false, Cool, 24, AutoSpeed, {})

  datatype Capabilities = Capabilities(features: set<Feature>, minimum: int, maximum: int)

  function CapabilitiesFor(protocol: Protocol): Capabilities {
    match protocol
    case Gree => Capabilities({SwingVertical, SwingHorizontal, Turbo, Sleep, Eco, Light, XFan}, 16, 30)
    case Midea => Capabilities({SwingVertical, Turbo, Sleep, Eco, Quiet, Light, XFan}, 16, 30)
    case Kelon168 => Capabilities({SwingVertical, Turbo, Sleep, Light}, 16, 32)
    case Haier160 => Capabilities({SwingVertical, Turbo, Sleep, Quiet, Light, XFan}, 16, 30)
    case Haier176 => Capabilities({SwingVertical, SwingHorizontal, Turbo, Sleep, Quiet}, 16, 30)
    case HaierYrw02 => Capabilities({SwingVertical, SwingHorizontal, Turbo, Sleep, Quiet}, 16, 30)
    case HaierAc => Capabilities({SwingVertical, Sleep}, 16, 30)
    case OtherProtocol(_) => Capabilities({SwingVertical}, 16, 30)
  }

  predicate SupportedBrand(protocol: Protocol, brand: Brand) {
    match protocol
    case Gree => brand == GreeBrand
    case Midea => brand == MideaBrand
    case Kelon168 => brand == HisenseBrand
    case OtherProtocol(_) => false
    case _ => brand == HaierBrand
  }

  predicate SupportedModel(protocol: Protocol, model: Model) {
    match protocol
    case Gree => model in {DefaultModel, Yaw1f, Ybofb, Yx1fsf}
    case HaierYrw02 => model in {DefaultModel, V9014557A, V9014557B}
    case Haier176 => model in {DefaultModel, V9014557A, V9014557B}
    case Kelon168 => model in {DefaultModel, Dg11r201}
    case OtherProtocol(_) => false
    case _ => model == DefaultModel
  }

  predicate Supported(config: Config) {
    !config.protocol.OtherProtocol? &&
    SupportedBrand(config.protocol, config.brand) &&
    SupportedModel(config.protocol, config.model)
  }

  // ------------------------------------------------------------------
  // Patches
  // ------------------------------------------------------------------

  // A JSON member: missing, of the wrong type, or a usable value.
  datatype Field<+T> = Absent | Malformed | Given(value: T)

  datatype Patch = Patch(
    power: Field<bool>, mode: Field<Mode>, temperature: Field<int>, fan: Field<FanSpeed>,
    features: map<Feature, Field<bool>>)
  {
    function Feature(f: Feature): Field<bool> {
      if f in features then features[f] else Absent
    }
  }

  function Pick<T>(field: Field<T>, otherwise: T): T {
    if field.Given? then field.value else otherwise
  }

  // What the firmware accepts under a protocol's capabilities.
  predicate Acceptable(caps: Capabilities, patch: Patch) {
    && !patch.power.Malformed? && !patch.mode.Malformed? && !patch.fan.Malformed? && !patch.temperature.Malformed?
    && (patch.temperature.Given? ==> caps.minimum <= patch.temperature.value <= caps.maximum)
    && (forall f: Feature :: patch.Feature(f).Absent? || (patch.Feature(f).Given? && f in caps.features))
  }

  function AllFeatures(): set<Feature> {
    {SwingVertical, SwingHorizontal, Turbo, Sleep, Eco, Quiet, Light, XFan}
  }

  lemma EveryFeature(f: Feature)
    ensures f in AllFeatures()
  {
  }

  function MergedFeatures(on: set<Feature>, patch: Patch): set<Feature> {
    set f | f in AllFeatures() && Pick(patch.Feature(f), f in on)
  }

  function Merge(config: Config, patch: Patch, base: AcState): Option<AcState> {
    if !Acceptable(CapabilitiesFor(config.protocol), patch) then None
    else Some(AcState(
      Pick(patch.power, base.power), Pick(patch.mode, base.mode), Pick(patch.temperature, base.temperature),
      Pick(patch.fan, base.fan), MergedFeatures(base.on, patch)))
  }

  // Every requested field has its requested value in `after`; every other field is as in `base`.
  ghost predicate ExactlyRequested(base: AcState, patch: Patch, after: AcState) {
    && (if patch.power.Given? then after.power == patch.power.value else after.power == base.power)
    && (if patch.mode.Given? then after.mode == patch.mode.value else after.mode == base.mode)
    && (if patch.temperature.Given? then after.temperature == patch.temperature.value
        else after.temperature == base.temperature)
    && (if patch.fan.Given? then after.fan == patch.fan.value else after.fan == base.fan)
    && (forall f: Feature ::
          f in after.on <==> if patch.Feature(f).Given? then patch.Feature(f).value else f in base.on)
  }

  lemma MergeIsExactlyRequested(config: Config, patch: Patch, base: AcState)
    requires Merge(config, patch, base).Some?
    ensures ExactlyRequested(base, patch, Merge(config, patch, base).value)
  {
    forall f: Feature { EveryFeature(f); }
  }

  // A merge is determined by what was requested, so merging the same patch again changes nothing.
  lemma MergeIsIdempotent(config: Config, patch: Patch, base: AcState)
    requires Merge(config, patch, base).Some?
    ensures Merge(config, patch, Merge(config, patch, base).value) == Merge(config, patch, base)
  {
    var once := Merge(config, patch, base).value;
    var twice := Merge(config, patch, once).value;
    assert twice.on == once.on;
  }

  // ------------------------------------------------------------------
  // The controller
  // ------------------------------------------------------------------

  datatype Ctrl = Ctrl(configured: bool, config: Config, state: AcState, version: nat)

  datatype Refusal = UnsupportedConfig | StaleVersion | BadPatch | Exhausted | NotSent
  datatype Outcome = Applied | NoChange | Refused(why: Refusal)

  ghost predicate InRange(config: Config, state: AcState) {
    CapabilitiesFor(config.protocol).minimum <= state.temperature <= CapabilitiesFor(config.protocol).maximum
  }

  // What holds of every configured controller that started from an erased flash.
  ghost predicate Healthy(c: Ctrl) {
    && c.version <= UINT32_MAX
    && (c.configured ==>
          && Supported(c.config)
          && InRange(c.config, c.state)
          && c.state.on <= CapabilitiesFor(c.config.protocol).features)
    && (!c.configured ==> !Supported(c.config) && c.state == DEFAULT_STATE && c.version == 0)
  }

  // What a controller holds after a command it did not refuse: every requested field as requested, and every other one
  // as it held it before; off, cooling, at 24 degrees when it had no configuration or another one.
  ghost predicate Fulfils(before: Ctrl, config: Config, patch: Patch, after: AcState) {
    if before.configured && before.config == config then ExactlyRequested(before.state, patch, after)
    else ExactlyRequested(AcState(false, Cool, 24, AutoSpeed, {}), patch, after)
  }

  function BaseState(c: Ctrl, config: Config): AcState {
    if !c.configured || c.config != config then DEFAULT_STATE else c.state
  }

  // The version after a committed change: the next one, or the requested one when that is further on.
  function NextVersion(current: nat, requested: Option<nat>): nat {
    if requested.Some? && requested.value > current + 1 then requested.value else current + 1
  }

  function Apply(c: Ctrl, config: Config, patch: Patch, requested: Option<nat>, sent: bool): (Ctrl, Outcome) {
    if !Supported(config) then (c, Refused(UnsupportedConfig))
    else if requested.Some? && requested.value < c.version then (c, Refused(StaleVersion))
    else
      var candidate := Merge(config, patch, BaseState(c, config));
      if candidate.None? then (c, Refused(BadPatch))
      else if c.configured && c.config == config && candidate.value == c.state then (c, NoChange)
      else if c.version == UINT32_MAX then (c, Refused(Exhausted))
      else if !sent then (c, Refused(NotSent))
      else (Ctrl(true, config, candidate.value, NextVersion(c.version, requested)), Applied)
  }

  // The infrared transmitter is reached exactly on the commands that would be committed if it succeeds.
  predicate ReachesTransmitter(c: Ctrl, config: Config, patch: Patch, requested: Option<nat>) {
    Apply(c, config, patch, requested, true).1 == Applied
  }

  lemma TransmissionDecidesOnlyCommit(c: Ctrl, config: Config, patch: Patch, requested: Option<nat>)
    ensures ReachesTransmitter(c, config, patch, requested)
            <==> Apply(c, config, patch, requested, false).1 == Refused(NotSent)
    ensures !ReachesTransmitter(c, config, patch, requested)
            ==> Apply(c, config, patch, requested, true) == Apply(c, config, patch, requested, false)
  {
  }

  lemma {:induction false} ApplyKeepsHealthy(c: Ctrl, config: Config, patch: Patch, requested: Option<nat>, sent: bool)
    requires Healthy(c)
    requires requested.Some? ==> requested.value <= UINT32_MAX
    ensures Healthy(Apply(c, config, patch, requested, sent).0)
  {
  }

  // A refused or idle command leaves the controller as it was; a committed one moves strictly forward,
  // at least to the requested version, to exactly the requested state over the controller's own prior
  // state, or over the default state when the configuration changes.
  lemma ApplyMeaning(c: Ctrl, config: Config, patch: Patch, requested: Option<nat>, sent: bool)
    ensures
      var (after, outcome) := Apply(c, config, patch, requested, sent);
      && (outcome != Applied ==> after == c)
      && (outcome == Applied ==> after.version > c.version && sent && after != c)
      && (!outcome.Refused? ==>
            && after.configured && after.config == config
            && Fulfils(c, config, patch, after.state)
            && (requested.Some? ==> requested.value >= c.version && (outcome == Applied ==> after.version >= requested.value)))
      && (outcome == Applied && (requested.None? || requested.value <= c.version + 1) ==> after.version == c.version + 1)
      && (outcome == Applied && requested.Some? && requested.value > c.version ==> after.version == requested.value)
  {
    var base := BaseState(c, config);
    if Merge(config, patch, base).Some? {
      MergeIsExactlyRequested(config, patch, base);
    }
  }

  // Everything the patch asks for is as the controller already has it.
  ghost predicate AlreadySo(c: Ctrl, config: Config, patch: Patch) {
    c.configured && c.config == config && ExactlyRequested(c.state, patch, c.state)
  }

  lemma AlreadySoIff(c: Ctrl, config: Config, patch: Patch)
    requires Acceptable(CapabilitiesFor(config.protocol), patch)
    ensures AlreadySo(c, config, patch) <==>
            c.configured && c.config == config && Merge(config, patch, c.state) == Some(c.state)
  {
    var merged := Merge(config, patch, c.state).value;
    MergeIsExactlyRequested(config, patch, c.state);
    if ExactlyRequested(c.state, patch, c.state) {
      assert forall f: Feature :: f in merged.on <==> f in c.state.on;
      assert merged.on == c.state.on;
    }
  }

  // Exactly which command comes to what: the checks in their order.
  lemma OutcomeIff(c: Ctrl, config: Config, patch: Patch, requested: Option<nat>, sent: bool)
    ensures
      var outcome := Apply(c, config, patch, requested, sent).1;
      var late := requested.Some? && requested.value < c.version;
      var asked := Supported(config) && !late && Acceptable(CapabilitiesFor(config.protocol), patch);
      && (outcome == Refused(UnsupportedConfig) <==> !Supported(config))
      && (outcome == Refused(StaleVersion) <==> Supported(config) && late)
      && (outcome == Refused(BadPatch) <==>
            Supported(config) && !late && !Acceptable(CapabilitiesFor(config.protocol), patch))
      && (outcome == NoChange <==> asked && AlreadySo(c, config, patch))
      && (outcome == Refused(Exhausted) <==> asked && !AlreadySo(c, config, patch) && c.version == UINT32_MAX)
      && (outcome == Refused(NotSent) <==> asked && !AlreadySo(c, config, patch) && c.version != UINT32_MAX && !sent)
      && (outcome == Applied <==> asked && !AlreadySo(c, config, patch) && c.version != UINT32_MAX && sent)
  {
    if Acceptable(CapabilitiesFor(config.protocol), patch) { AlreadySoIff(c, config, patch); }
  }

  // ------------------------------------------------------------------
  // One command, many copies
  // ------------------------------------------------------------------

  // A command carrying version `n` can have no further effect on controller `c`.
  ghost predicate Spent(c: Ctrl, config: Config, patch: Patch, n: nat) {
    || n < c.version
    || (n == c.version && c.configured && c.config == config && Merge(config, patch, c.state) == Some(c.state))
  }

  lemma CommittedIsSpent(c: Ctrl, config: Config, patch: Patch, n: nat, sent: bool)
    requires Apply(c, config, patch, Some(n), sent).1 == Applied
    ensures Spent(Apply(c, config, patch, Some(n), sent).0, config, patch, n)
  {
    MergeIsIdempotent(config, patch, BaseState(c, config));
  }

  lemma SpentHasNoEffect(c: Ctrl, config: Config, patch: Patch, n: nat, sent: bool)
    requires Spent(c, config, patch, n)
    ensures !ReachesTransmitter(c, config, patch, Some(n))
    ensures Apply(c, config, patch, Some(n), sent).0 == c
    ensures Supported(config) ==> Apply(c, config, patch, Some(n), sent).1 in {Refused(StaleVersion), NoChange}
  {
  }

  // A command that asks for what the controller already holds.
  predicate NoOp(c: Ctrl, config: Config, patch: Patch) {
    c.configured && c.config == config && Merge(config, patch, c.state) == Some(c.state)
  }

  // Exactly which commands reach the transmitter.
  lemma ReachesTransmitterIff(c: Ctrl, config: Config, patch: Patch, requested: Option<nat>)
    ensures ReachesTransmitter(c, config, patch, requested) <==>
              && Supported(config) && Acceptable(CapabilitiesFor(config.protocol), patch)
              && (requested.Some? ==> requested.value >= c.version)
              && c.version != UINT32_MAX && !NoOp(c, config, patch)
  {
  }

  // A command whose transmission fails leaves the controller as it was, so the next copy is transmitted again.
  lemma FailedCopyTransmitsAgain(c: Ctrl, config: Config, patch: Patch, requested: Option<nat>)
    requires ReachesTransmitter(c, config, patch, requested)
    ensures Apply(c, config, patch, requested, false) == (c, Refused(NotSent))
    ensures ReachesTransmitter(Apply(c, config, patch, requested, false).0, config, patch, requested)
  {
  }

  // A patch that requests nothing.
  const NOTHING := Patch(Absent, Absent, Absent, Absent, map[])

  // Without a version nothing protects against replays: whatever a command asks for, once another configuration
  // has been set in between, a second copy of it takes effect like the first.
  lemma UnversionedCopiesRepeat(c: Ctrl, config: Config, patch: Patch, other: Config)
    requires Supported(config) && Acceptable(CapabilitiesFor(config.protocol), patch) && !NoOp(c, config, patch)
    requires Supported(other) && other != config && c.version + 3 <= UINT32_MAX
    ensures
      var (c1, first) := Apply(c, config, patch, None, true);
      var (c2, between) := Apply(c1, other, NOTHING, None, true);
      var (c3, second) := Apply(c2, config, patch, None, true);
      && first == between == second == Applied
      && ExactlyRequested(AcState(false, Cool, 24, AutoSpeed, {}), patch, c3.state) && c3.version == c.version + 3
  {
    ApplyMeaning(Apply(Apply(c, config, patch, None, true).0, other, NOTHING, None, true).0, config, patch, None, true);
  }
}
