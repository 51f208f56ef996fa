/**
 The firmware's persistent record: a fixed-size binary image of the controller state in
 which the eight feature switches share one byte, written after every committed change
 and read back at boot.
 */
module AcFlash {
  import opened Prelude
  import opened AcModel

  newtype uint8 = x: int | 0 <= x < 256

  const SCHEMA: uint8 := 2

  datatype Image = Image(schema: uint8, power: uint8, mode: uint8, temperature: uint8, fan: uint8,
                         flags: bv8, version: nat)

  // The "ac-state" preferences namespace. `image` is None when the stored bytes are missing or short.
  datatype Flash = Flash(brand: Brand, protocol: Protocol, model: Model, image: Option<Image>)
  {
    function Settings(): Config { Config(brand, protocol, model) }
  }

  // Missing keys read back as these defaults.
  const ERASED := Flash(OtherBrand(""), OtherProtocol(""), DefaultModel, None)

  function Bit(f: Feature): bv8 {
    match f
    case SwingVertical => 1
    case SwingHorizontal => 2
    case Turbo => 4
    case Sleep => 8
    case Eco => 16
    case Quiet => 32
    case Light => 64
    case XFan => 128
  }

  function Flag(on: set<Feature>, f: Feature): bv8 {
    if f in on then Bit(f) else 0
  }

  function PackFlags(on: set<Feature>): bv8 {
    Flag(on, SwingVertical) | Flag(on, SwingHorizontal) | Flag(on, Turbo) | Flag(on, Sleep) |
    Flag(on, Eco) | Flag(on, Quiet) | Flag(on, Light) | Flag(on, XFan)
  }

  function UnpackFlags(flags: bv8): set<Feature> {
    set f | f in AllFeatures() && flags & Bit(f) != 0
  }

  lemma PackedBit(on: set<Feature>, f: Feature)
    ensures PackFlags(on) & Bit(f) != 0 <==> f in on
  {
  }

  lemma FlagsRoundTrip(on: set<Feature>)
    ensures UnpackFlags(PackFlags(on)) == on
  {
    forall f: Feature
      ensures f in UnpackFlags(PackFlags(on)) <==> f in on
    {
      EveryFeature(f);
      PackedBit(on, f);
    }
  }

  // Every byte is the packing of exactly one feature set, so no bit is unused or shared.
  lemma BytesRoundTrip(flags: bv8)
    ensures PackFlags(UnpackFlags(flags)) == flags
  {
  }

  function ModeCode(mode: Mode): uint8 {
    match mode case Auto => 0 case Cool => 1 case Heat => 2 case Dry => 3 case FanOnly => 4
  }

  function ModeOf(code: uint8): Mode
    requires code <= 4
  {
    match code case 0 => Auto case 1 => Cool case 2 => Heat case 3 => Dry case _ => FanOnly
  }

  function FanCode(fan: FanSpeed): uint8 {
    match fan case AutoSpeed => 0 case LowSpeed => 1 case MediumSpeed => 2 case HighSpeed => 3
  }

  function FanOf(code: uint8): FanSpeed
    requires code <= 3
  {
    match code case 0 => AutoSpeed case 1 => LowSpeed case 2 => MediumSpeed case _ => HighSpeed
  }

  function Save(c: Ctrl): Flash {
    Flash(c.config.brand, c.config.protocol, c.config.model,
          Some(Image(SCHEMA, if c.state.power then 1 else 0, ModeCode(c.state.mode), c.state.temperature as uint8,
                     FanCode(c.state.fan), PackFlags(c.state.on), c.version)))
  }

  // The image is used only when every guard passes; otherwise the controller starts from the defaults.
  predicate Usable(config: Config, image: Image) {
    && Supported(config)
    && image.schema == SCHEMA && image.mode <= 4 && image.fan <= 3
    && CapabilitiesFor(config.protocol).minimum <= image.temperature as int <= CapabilitiesFor(config.protocol).maximum
  }

  function Load(flash: Flash): Ctrl {
    if flash.image.Some? && Usable(flash.Settings(), flash.image.value) then
      var image := flash.image.value;
      Ctrl(true, flash.Settings(),
           AcState(image.power != 0, ModeOf(image.mode), image.temperature as int, FanOf(image.fan),
                   UnpackFlags(image.flags)),
           image.version)
    else
      Ctrl(Supported(flash.Settings()), flash.Settings(), DEFAULT_STATE, 0)
  }

  // What a boot takes from flash: the settings always, the rest exactly when they are supported and the image has the
  // known schema, codes and range; otherwise the defaults.
  lemma BootOutcome(flash: Flash)
    ensures
      var settings := Config(flash.brand, flash.protocol, flash.model);
      var c := Load(flash);
      && c.config == settings && (c.configured <==> Supported(settings))
      && (if flash.image.Some? && Supported(settings)
             && flash.image.value.schema == 2 && flash.image.value.mode <= 4 && flash.image.value.fan <= 3
             && CapabilitiesFor(flash.protocol).minimum <= flash.image.value.temperature as int
                <= CapabilitiesFor(flash.protocol).maximum
          then
            var image := flash.image.value;
            && c.version == image.version && (c.state.power <==> image.power != 0)
            && c.state.temperature == image.temperature as int
            && c.state.mode == [Auto, Cool, Heat, Dry, FanOnly][image.mode as int]
            && c.state.fan == [AutoSpeed, LowSpeed, MediumSpeed, HighSpeed][image.fan as int]
            && PackFlags(c.state.on) == image.flags
          else c.version == 0 && c.state == AcState(false, Cool, 24, AutoSpeed, {}))
  {
    if flash.image.Some? { BytesRoundTrip(flash.image.value.flags); }
  }

  // A saved controller is restored bit for bit exactly when it has a supported configuration and a
  // temperature in that protocol's range; otherwise the reload falls back to the defaults.
  lemma ReloadRestoresIff(c: Ctrl)
    ensures Load(Save(c)) == c
            <==> || (c.configured && Supported(c.config) && InRange(c.config, c.state))
                 || (c == Ctrl(Supported(c.config), c.config, DEFAULT_STATE, 0))
  {
    FlagsRoundTrip(c.state.on);
  }

  // Whatever the flash holds, a booted controller is in range, and its features are supported when the
  // stored ones are.
  lemma BootIsHealthy(flash: Flash)
    requires flash.image.Some? ==>
               && flash.image.value.version <= UINT32_MAX
               && UnpackFlags(flash.image.value.flags) <= CapabilitiesFor(flash.protocol).features
    ensures Healthy(Load(flash))
  {
  }

  // One controller: its RAM and its flash.
  datatype Unit = Unit(ram: Ctrl, flash: Flash)

  // RAM is always what a reboot would restore.
  ghost predicate InStep(u: Unit) {
    u.ram == Load(u.flash) && Healthy(u.ram)
  }

  function Boot(flash: Flash): Unit {
    Unit(Load(flash), flash)
  }

  function ApplyAndPersist(u: Unit, config: Config, patch: Patch, requested: Option<nat>, sent: bool): (Unit, Outcome) {
    var (after, outcome) := Apply(u.ram, config, patch, requested, sent);
    if outcome == Applied then (Unit(after, Save(after)), outcome)
    else (u, outcome)
  }

  lemma ErasedBootsInStep()
    ensures InStep(Boot(ERASED))
    ensures Boot(ERASED).ram == Ctrl(false, ERASED.Settings(), DEFAULT_STATE, 0)
  {
  }

  // The joint RAM and flash invariant: kept by every command and every reboot; a reboot restores the
  // same configuration, state and version; a command that is not committed changes neither side.
  lemma StaysInStep(u: Unit, config: Config, patch: Patch, requested: Option<nat>, sent: bool)
    requires InStep(u)
    requires requested.Some? ==> requested.value <= UINT32_MAX
    ensures
      var (after, outcome) := ApplyAndPersist(u, config, patch, requested, sent);
      && InStep(after)
      && Boot(after.flash) == after
      && (after.ram, outcome) == Apply(u.ram, config, patch, requested, sent)
      && (outcome != Applied ==> after == u)
  {
    ApplyKeepsHealthy(u.ram, config, patch, requested, sent);
    ApplyMeaning(u.ram, config, patch, requested, sent);
    var (after, outcome) := Apply(u.ram, config, patch, requested, sent);
    if outcome == Applied {
      ReloadRestoresIff(after);
    }
  }
}
