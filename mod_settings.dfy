/** The front end's mod settings record, its defaults, the multiplier clamp,
    and the fail-soft helpers that keep a partial record in local storage under
    the key `modSettings`. */
module ModSettings {
  import opened Wrappers
  import opened LocalStorage

  datatype Settings = Settings(
    fly: bool,
    superSpeed: bool,
    speedMultiplier: real,
    superJump: bool,
    jumpMultiplier: real,
    disableMonsters: bool,
    rainbowBackground: bool)

  /** Every switch off, both multipliers at 1. */
  const Default := Settings(false, false, 1.0, false, 1.0, false, false)

  /** The seven fields by name, so that statements can range over them. */
  datatype Field = Fly | SuperSpeed | SpeedMultiplier | SuperJump | JumpMultiplier | DisableMonsters | RainbowBackground

  datatype Value = Flag(on: bool) | Number(x: real)

  function Get(s: Settings, f: Field): Value {
    match f
    case Fly => Flag(s.fly)
    case SuperSpeed => Flag(s.superSpeed)
    case SpeedMultiplier => Number(s.speedMultiplier)
    case SuperJump => Flag(s.superJump)
    case JumpMultiplier => Number(s.jumpMultiplier)
    case DisableMonsters => Flag(s.disableMonsters)
    case RainbowBackground => Flag(s.rainbowBackground)
  }

  predicate IsMultiplier(f: Field) {
    f == SpeedMultiplier || f == JumpMultiplier
  }

  /** Two records that agree on every field are equal. */
  lemma {:induction false} SettingsExtensional(s: Settings, t: Settings)
    requires forall f :: Get(s, f) == Get(t, f)
    ensures s == t
  {
    assert Get(s, Fly) == Get(t, Fly);
    assert Get(s, SuperSpeed) == Get(t, SuperSpeed);
    assert Get(s, SpeedMultiplier) == Get(t, SpeedMultiplier);
    assert Get(s, SuperJump) == Get(t, SuperJump);
    assert Get(s, JumpMultiplier) == Get(t, JumpMultiplier);
    assert Get(s, DisableMonsters) == Get(t, DisableMonsters);
    assert Get(s, RainbowBackground) == Get(t, RainbowBackground);
  }

  lemma DefaultIsAllOff(f: Field)
    ensures Get(Default, f) == if IsMultiplier(f) then Number(1.0) else Flag(false)
  {
  }

  /** `Partial<ModSettings>`: `None` is a key that is not present. */
  datatype PartialSettings = PartialSettings(
    fly: Option<bool>,
    superSpeed: Option<bool>,
    speedMultiplier: Option<real>,
    superJump: Option<bool>,
    jumpMultiplier: Option<real>,
    disableMonsters: Option<bool>,
    rainbowBackground: Option<bool>)

  /** The empty record `{}`. */
  const NoSettings := PartialSettings(None, None, None, None, None, None, None)

  function FlagOf(o: Option<bool>): Option<Value> {
    if o.Some? then Some(Flag(o.value)) else None
  }

  function NumberOf(o: Option<real>): Option<Value> {
    if o.Some? then Some(Number(o.value)) else None
  }

  function Lookup(p: PartialSettings, f: Field): Option<Value> {
    match f
    case Fly => FlagOf(p.fly)
    case SuperSpeed => FlagOf(p.superSpeed)
    case SpeedMultiplier => NumberOf(p.speedMultiplier)
    case SuperJump => FlagOf(p.superJump)
    case JumpMultiplier => NumberOf(p.jumpMultiplier)
    case DisableMonsters => FlagOf(p.disableMonsters)
    case RainbowBackground => FlagOf(p.rainbowBackground)
  }

  /** The one-field update `{ [f]: v }`; the value has the field's kind. */
  function Only(f: Field, v: Value): (p: PartialSettings)
    requires IsMultiplier(f) <==> v.Number?
    ensures forall g :: Lookup(p, g) == if g == f then Some(v) else None
  {
    match f
    case Fly => NoSettings.(fly := Some(v.on))
    case SuperSpeed => NoSettings.(superSpeed := Some(v.on))
    case SpeedMultiplier => NoSettings.(speedMultiplier := Some(v.x))
    case SuperJump => NoSettings.(superJump := Some(v.on))
    case JumpMultiplier => NoSettings.(jumpMultiplier := Some(v.x))
    case DisableMonsters => NoSettings.(disableMonsters := Some(v.on))
    case RainbowBackground => NoSettings.(rainbowBackground := Some(v.on))
  }

  /** `{ ...s, ...p }`: each field present in `p` replaces the one in `s`. */
  function Overlay(s: Settings, p: PartialSettings): (r: Settings)
    ensures forall f :: Get(r, f) == if Lookup(p, f).Some? then Lookup(p, f).value else Get(s, f)
  {
    Settings(
      p.fly.GetOr(s.fly),
      p.superSpeed.GetOr(s.superSpeed),
      p.speedMultiplier.GetOr(s.speedMultiplier),
      p.superJump.GetOr(s.superJump),
      p.jumpMultiplier.GetOr(s.jumpMultiplier),
      p.disableMonsters.GetOr(s.disableMonsters),
      p.rainbowBackground.GetOr(s.rainbowBackground))
  }

  /** Overlaying the same partial record twice is the same as once. */
  lemma {:induction false} OverlayIdempotent(s: Settings, p: PartialSettings)
    ensures Overlay(Overlay(s, p), p) == Overlay(s, p)
  {
    SettingsExtensional(Overlay(Overlay(s, p), p), Overlay(s, p));
  }

  /** Of two successive overlays, the later one wins on the fields it sets and
      the earlier one survives on the rest. */
  lemma LastWriteWins(s: Settings, p1: PartialSettings, p2: PartialSettings, f: Field)
    ensures Lookup(p2, f).Some? ==> Get(Overlay(Overlay(s, p1), p2), f) == Lookup(p2, f).value
    ensures Lookup(p2, f).None? ==> Get(Overlay(Overlay(s, p1), p2), f) == Get(Overlay(s, p1), f)
  {
  }

  lemma OverlayNothing(s: Settings)
    ensures Overlay(s, NoSettings) == s
  {
  }

  /** `Math.round`: the nearest integer, halves rounded up. */
  function Round(x: real): (n: int)
    ensures x - 0.5 < n as real <= x + 0.5
  {
    (x + 0.5).Floor
  }

  lemma {:induction false} RoundMonotone(x: real, y: real)
    requires x <= y
    ensures Round(x) <= Round(y)
  {
    var a, b := Round(x), Round(y);
    assert a as real <= x + 0.5 < a as real + 1.0;
    assert b as real <= y + 0.5 < b as real + 1.0;
  }

  lemma RoundInteger(n: int)
    ensures Round(n as real) == n
  {
    assert n as real <= n as real + 0.5 < n as real + 1.0;
  }

  /** `clampMultiplier`: round to an integer, then bring it into [1, 10]. */
  function ClampMultiplier(value: real): (r: int)
    ensures 1 <= r <= 10
    ensures Round(value) <= 1 ==> r == 1
    ensures Round(value) >= 10 ==> r == 10
    ensures 1 <= Round(value) <= 10 ==> r == Round(value)
  {
    var rounded := Round(value);
    var upper := if rounded < 10 then rounded else 10;
    if upper > 1 then upper else 1
  }

  /** The integers 1 to 10 are left as they are. */
  lemma ClampFixesValidIntegers(n: int)
    requires 1 <= n <= 10
    ensures ClampMultiplier(n as real) == n
  {
    RoundInteger(n);
  }

  lemma ClampIdempotent(x: real)
    ensures ClampMultiplier(ClampMultiplier(x) as real) == ClampMultiplier(x)
  {
    ClampFixesValidIntegers(ClampMultiplier(x));
  }

  lemma ClampMonotone(x: real, y: real)
    requires x <= y
    ensures ClampMultiplier(x) <= ClampMultiplier(y)
  {
    RoundMonotone(x, y);
  }

  /** Everything below 1.5 gives 1 and everything from 9.5 up gives 10. */
  lemma ClampSaturates(x: real)
    ensures x < 1.5 ==> ClampMultiplier(x) == 1
    ensures x >= 9.5 ==> ClampMultiplier(x) == 10
  {
    if x < 1.5 {
      assert Round(x) as real <= x + 0.5 < 2.0;
    }
    if x >= 9.5 {
      RoundMonotone(9.5, x);
      assert Round(9.5) == 10;
    }
  }

  const SettingsKey := "modSettings"

  /** `JSON.stringify` and `JSON.parse` for the stored record; `parse` gives
      `None` where it would throw. */
  datatype JsonCodec = JsonCodec(stringify: PartialSettings -> string, parse: string -> Option<PartialSettings>)

  /** What JSON guarantees of the pair: the text of a record is non-empty and
      parses back to the record. */
  ghost predicate Faithful(codec: JsonCodec) {
    forall p :: codec.parse(codec.stringify(p)) == Some(p) && codec.stringify(p) != ""
  }

  /** `getStoredSettings`: the parsed record under `modSettings`, and `{}` when
      the key is missing or empty, when reading throws, or when parsing throws. */
  function GetStoredSettings(store: Store, codec: JsonCodec): (r: PartialSettings)
    reads store
    ensures !store.readable ==> r == NoSettings
    ensures store.readable && (SettingsKey !in store.entries || store.entries[SettingsKey] == "") ==> r == NoSettings
    ensures store.readable && SettingsKey in store.entries && store.entries[SettingsKey] != ""
            ==> r == codec.parse(store.entries[SettingsKey]).GetOr(NoSettings)
  {
    match store.GetItem(SettingsKey)
    case Err(_) => NoSettings
    case Ok(None) => NoSettings
    case Ok(Some(text)) =>
      if text == "" then NoSettings
      else match codec.parse(text)
        case None => NoSettings
        case Some(p) => p
  }

  /** `storeSettings`: writes the record's JSON under `modSettings`; a failing
      write is caught, so it never throws. */
  method StoreSettings(store: Store, codec: JsonCodec, p: PartialSettings)
    modifies store
    ensures store.writable ==> store.entries == old(store.entries)[SettingsKey := codec.stringify(p)]
    ensures !store.writable ==> store.entries == old(store.entries)
  {
    var outcome := store.SetItem(SettingsKey, codec.stringify(p));
  }

  /** Once a record has been stored, a readable store gives it back. */
  lemma StoredSettingsReadBack(store: Store, codec: JsonCodec, p: PartialSettings)
    requires Faithful(codec)
    requires store.readable && SettingsKey in store.entries && store.entries[SettingsKey] == codec.stringify(p)
    ensures GetStoredSettings(store, codec) == p
  {
    assert codec.parse(codec.stringify(p)) == Some(p) && codec.stringify(p) != "";
  }
}
