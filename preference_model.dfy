/** The observable preference model of the GUI: a record of settings read
    from and written to the user-defaults key-value store. */
module Preferences {
  import opened Common

  // ---------------------------------------------------------------------
  // Raw-value enumerations
  // ---------------------------------------------------------------------

  /** TV system. */
  datatype VideoMode = Ntsc | Pal {
    function RawValue(): (v: int)
      ensures v == 0 || v == 1
      ensures v == 1 <==> this == Pal
    {
      match this
      case Ntsc => 0
      case Pal => 1
    }
  }

  /** `VideoMode(rawValue:)`: only 0 and 1 name a mode. */
  function VideoModeOf(raw: int): (m: Option<VideoMode>)
    ensures m.Some? <==> raw == 0 || raw == 1
    ensures m.Some? ==> m.value.RawValue() == raw
  {
    if raw == 0 then Some(Ntsc) else if raw == 1 then Some(Pal) else None
  }

  /** Display scaling / filter mode. */
  datatype ScalingMode = Normal | Scanline {
    function RawValue(): (v: int)
      ensures v == 0 || v == 1
      ensures v == 1 <==> this == Scanline
    {
      match this
      case Normal => 0
      case Scanline => 1
    }
  }

  /** `ScalingMode(rawValue:)`: only 0 and 1 name a mode. */
  function ScalingModeOf(raw: int): (m: Option<ScalingMode>)
    ensures m.Some? <==> raw == 0 || raw == 1
    ensures m.Some? ==> m.value.RawValue() == raw
  {
    if raw == 0 then Some(Normal) else if raw == 1 then Some(Scanline) else None
  }

  /** Both enumerations survive the trip through their raw values. */
  lemma RawValueRoundTrip(v: VideoMode, s: ScalingMode)
    ensures VideoModeOf(v.RawValue()) == Some(v)
    ensures ScalingModeOf(s.RawValue()) == Some(s)
  {
  }

  // ---------------------------------------------------------------------
  // The key-value store
  // ---------------------------------------------------------------------

  /** A stored value: an integer, a boolean or a double. */
  datatype Value = IntValue(i: int) | BoolValue(b: bool) | DoubleValue(d: Double)

  type Store = map<Key, Value>

  /** `integer(forKey:)`: a missing key, or a value of another kind, reads as 0. */
  function IntegerFor(d: Store, key: Key): int
  {
    if key in d && d[key].IntValue? then d[key].i else 0
  }

  /** `bool(forKey:)`: a missing key, or a value of another kind, reads as false. */
  function BoolFor(d: Store, key: Key): bool
  {
    if key in d && d[key].BoolValue? then d[key].b else false
  }

  /** `double(forKey:)`: a missing key, or a value of another kind, reads as 0.0. */
  function DoubleFor(d: Store, key: Key): Double
  {
    if key in d && d[key].DoubleValue? then d[key].d else DoubleZero
  }

  /** Each reader returns the stored value of its own kind, and the default
      for a key that is missing. */
  lemma ReadersReturnStoredOrDefault(d: Store, key: Key, i: int, b: bool, x: Double)
    ensures key !in d ==> IntegerFor(d, key) == 0 && !BoolFor(d, key) && DoubleFor(d, key) == DoubleZero
    ensures IntegerFor(d[key := IntValue(i)], key) == i
    ensures BoolFor(d[key := BoolValue(b)], key) == b
    ensures DoubleFor(d[key := DoubleValue(x)], key) == x
  {
  }

  /** The keys of the store: the twelve this model persists, named after
      their string values, and every other preference key. */
  datatype Key =
    | KeyTvMode | KeyScaleMode | KeyFixAspectFullscreen | KeyOnlyIntegralScaling
    | KeyShowFPS | KeyArtifactingMode | KeyEnableSound | KeySoundVolume
    | KeyEnableStereo | KeyAtariTypeVer5 | KeySpeedLimit | KeyDisableBasic
    | OtherKey(name: string)

  const PersistedKeys: set<Key> := {
    KeyTvMode, KeyScaleMode, KeyFixAspectFullscreen, KeyOnlyIntegralScaling,
    KeyShowFPS, KeyArtifactingMode, KeyEnableSound, KeySoundVolume,
    KeyEnableStereo, KeyAtariTypeVer5, KeySpeedLimit, KeyDisableBasic
  }

  // ---------------------------------------------------------------------
  // The settings record
  // ---------------------------------------------------------------------

  /** The published properties of `PreferenceModel`. */
  datatype Settings = Settings(
    videoMode: VideoMode,
    scalingMode: ScalingMode,
    scanlinesEnabled: bool,
    brightness: Double,
    fixAspectFullscreen: bool,
    onlyIntegralScaling: bool,
    showFPS: bool,
    artifactingMode: int,
    audioEnabled: bool,
    audioVolume: Double,
    stereoEnabled: bool,
    machineModel: int,
    speedLimit: bool,
    disableBasic: bool)

  /** The property initialisers of a fresh model. */
  const DefaultSettings: Settings := Settings(
    Ntsc, Normal, false, DoubleOne, true, false, false, 0,
    true, DoubleOne, false, 1, true, true)

  /** What `load()` leaves in a model whose brightness is `brightness`:
      every persisted field read from the store, the two modes falling back
      to their first case, the scanline flag derived from the scaling mode,
      and the brightness untouched. No other field of the model before the
      load matters. */
  function Loaded(d: Store, brightness: Double): (s: Settings)
    ensures s.videoMode == Pal <==> IntegerFor(d, KeyTvMode) == 1
    ensures s.scalingMode == Scanline <==> IntegerFor(d, KeyScaleMode) == 1
    ensures s.scanlinesEnabled == (s.scalingMode == Scanline)
    ensures s.brightness == brightness
  {
    var scaling := ScalingModeOf(IntegerFor(d, KeyScaleMode)).GetOr(Normal);
    Settings(
      VideoModeOf(IntegerFor(d, KeyTvMode)).GetOr(Ntsc),
      scaling,
      scaling == Scanline,
      brightness,
      BoolFor(d, KeyFixAspectFullscreen),
      BoolFor(d, KeyOnlyIntegralScaling),
      BoolFor(d, KeyShowFPS),
      IntegerFor(d, KeyArtifactingMode),
      BoolFor(d, KeyEnableSound),
      DoubleFor(d, KeySoundVolume),
      BoolFor(d, KeyEnableStereo),
      IntegerFor(d, KeyAtariTypeVer5),
      BoolFor(d, KeySpeedLimit),
      BoolFor(d, KeyDisableBasic))
  }

  /** The twelve entries `save()` writes for settings `s`, the modes as
      their raw values. */
  function Written(s: Settings): (w: Store)
    ensures w.Keys == PersistedKeys
  {
    map[
      KeyTvMode := IntValue(s.videoMode.RawValue()),
      KeyScaleMode := IntValue(s.scalingMode.RawValue()),
      KeyFixAspectFullscreen := BoolValue(s.fixAspectFullscreen),
      KeyOnlyIntegralScaling := BoolValue(s.onlyIntegralScaling),
      KeyShowFPS := BoolValue(s.showFPS),
      KeyArtifactingMode := IntValue(s.artifactingMode),
      KeyEnableSound := BoolValue(s.audioEnabled),
      KeySoundVolume := DoubleValue(s.audioVolume),
      KeyEnableStereo := BoolValue(s.stereoEnabled),
      KeyAtariTypeVer5 := IntValue(s.machineModel),
      KeySpeedLimit := BoolValue(s.speedLimit),
      KeyDisableBasic := BoolValue(s.disableBasic)
    ]
  }

  /** What `save()` leaves in the store: the twelve persisted keys written,
      every other key as it was. */
  function Saved(d: Store, s: Settings): (r: Store)
    ensures r.Keys == d.Keys + PersistedKeys
    ensures forall k :: k in d && k !in PersistedKeys ==> r[k] == d[k]
    ensures forall k :: k in PersistedKeys ==> r[k] == Written(s)[k]
  {
    d + Written(s)
  }

  // ---------------------------------------------------------------------
  // Properties of load and save
  // ---------------------------------------------------------------------

  /** Saving and then loading restores all twelve persisted fields; the
      scanline flag follows the scaling mode and the brightness is the
      loading model's own. */
  lemma SaveThenLoad(d: Store, s: Settings, brightness: Double)
    ensures Loaded(Saved(d, s), brightness)
         == s.(scanlinesEnabled := s.scalingMode == Scanline, brightness := brightness)
  {
  }

  /** Loading and then saving writes only the raw values 0 and 1 for the two
      modes, whatever the store held for them before. */
  lemma LoadThenSaveNormalisesModes(d: Store, brightness: Double, target: Store)
    ensures Saved(target, Loaded(d, brightness))[KeyTvMode] in {IntValue(0), IntValue(1)}
    ensures Saved(target, Loaded(d, brightness))[KeyScaleMode] in {IntValue(0), IntValue(1)}
    ensures IntegerFor(d, KeyTvMode) !in {0, 1} ==> Loaded(d, brightness).videoMode == Ntsc
    ensures IntegerFor(d, KeyScaleMode) !in {0, 1} ==> Loaded(d, brightness).scalingMode == Normal
  {
  }

  /** The machine model and artifacting mode pass through as raw integers,
      with no range check, in either direction: a load reads whatever integer
      is stored, and a save writes whatever integer the settings hold. */
  lemma RawIntegersPassThrough(d: Store, brightness: Double, model: int, artifacting: int, s: Settings)
    ensures Saved(d, s)[KeyAtariTypeVer5] == IntValue(s.machineModel)
    ensures Saved(d, s)[KeyArtifactingMode] == IntValue(s.artifactingMode)
    ensures Loaded(d[KeyAtariTypeVer5 := IntValue(model)][KeyArtifactingMode := IntValue(artifacting)], brightness).machineModel == model
    ensures Loaded(d[KeyAtariTypeVer5 := IntValue(model)][KeyArtifactingMode := IntValue(artifacting)], brightness).artifactingMode == artifacting
  {
  }

  // ---------------------------------------------------------------------
  // The model object and the store object
  // ---------------------------------------------------------------------

  /** `UserDefaults.standard`. */
  class UserDefaults {
    var entries: Store

    constructor (initial: Store)
      ensures entries == initial
    {
      entries := initial;
    }
  }

  /** `PreferenceModel`: one mutable field per published property. */
  class PreferenceModel {
    var videoMode: VideoMode
    var scalingMode: ScalingMode
    var scanlinesEnabled: bool
    var brightness: Double
    var fixAspectFullscreen: bool
    var onlyIntegralScaling: bool
    var showFPS: bool
    var artifactingMode: int
    var audioEnabled: bool
    var audioVolume: Double
    var stereoEnabled: bool
    var machineModel: int
    var speedLimit: bool
    var disableBasic: bool

    /** The current value of every property. */
    function Current(): Settings
      reads this
    {
      Settings(videoMode, scalingMode, scanlinesEnabled, brightness,
               fixAspectFullscreen, onlyIntegralScaling, showFPS, artifactingMode,
               audioEnabled, audioVolume, stereoEnabled, machineModel,
               speedLimit, disableBasic)
    }

    /** A fresh model holds the declared defaults. */
    constructor ()
      ensures Current() == DefaultSettings
    {
      videoMode := Ntsc;
      scalingMode := Normal;
      scanlinesEnabled := false;
      brightness := DoubleOne;
      fixAspectFullscreen := true;
      onlyIntegralScaling := false;
      showFPS := false;
      artifactingMode := 0;
      audioEnabled := true;
      audioVolume := DoubleOne;
      stereoEnabled := false;
      machineModel := 1;
      speedLimit := true;
      disableBasic := true;
    }

    /** `load()`: overwrite the properties one by one from the store. */
    method Load(d: UserDefaults)
      modifies this
      ensures Current() == Loaded(d.entries, old(brightness))
    {
      var e := d.entries;
      videoMode := VideoModeOf(IntegerFor(e, KeyTvMode)).GetOr(Ntsc);
      scalingMode := ScalingModeOf(IntegerFor(e, KeyScaleMode)).GetOr(Normal);
      scanlinesEnabled := scalingMode == Scanline;
      fixAspectFullscreen := BoolFor(e, KeyFixAspectFullscreen);
      onlyIntegralScaling := BoolFor(e, KeyOnlyIntegralScaling);
      showFPS := BoolFor(e, KeyShowFPS);
      artifactingMode := IntegerFor(e, KeyArtifactingMode);
      audioEnabled := BoolFor(e, KeyEnableSound);
      audioVolume := DoubleFor(e, KeySoundVolume);
      stereoEnabled := BoolFor(e, KeyEnableStereo);
      machineModel := IntegerFor(e, KeyAtariTypeVer5);
      speedLimit := BoolFor(e, KeySpeedLimit);
      disableBasic := BoolFor(e, KeyDisableBasic);
    }

    /** `save()`: write the twelve persisted properties into the store. */
    method Save(d: UserDefaults)
      modifies d
      ensures d.entries == Saved(old(d.entries), Current())
    {
      d.entries := d.entries + Written(Current());
    }
  }

  /** Loading from a store that holds none of the persisted keys (whatever
      other keys it holds) does not give the initialiser defaults: every flag
      reads as false, both numbers as 0 and the volume as 0.0. */
  lemma LoadEmptyStore(d: Store, brightness: Double)
    requires d.Keys !! PersistedKeys
    ensures Loaded(d, brightness)
         == Settings(Ntsc, Normal, false, brightness, false, false, false, 0,
                     false, DoubleZero, false, 0, false, false)
    ensures Loaded(d, DefaultSettings.brightness) != DefaultSettings
  {
  }

  /** A fresh model saved to a store and loaded back by another fresh model
      reads the defaults again. */
  method DefaultsSurviveSaveAndLoad(d: UserDefaults) returns (s: Settings)
    modifies d
    ensures s == DefaultSettings
    ensures d.entries == Saved(old(d.entries), DefaultSettings)
  {
    var writer := new PreferenceModel();
    writer.Save(d);
    var reader := new PreferenceModel();
    reader.Load(d);
    SaveThenLoad(old(d.entries), DefaultSettings, DefaultSettings.brightness);
    s := reader.Current();
  }
}
