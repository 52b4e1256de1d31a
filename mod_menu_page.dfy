/** The settings page's handlers: the multiplier inputs accept a parsed number
    only inside [1, 10] and otherwise do nothing, and each switch sends a
    one-field update with its checked state. */
module ModMenuPage {
  import opened Wrappers
  import opened ModSettings

  /** The guard both multiplier handlers apply to `parseFloat(value)`;
      `None` is `NaN`. */
  predicate Accepted(parsed: Option<real>) {
    parsed.Some? && 1.0 <= parsed.value <= 10.0
  }

  /** `handleSpeedMultiplierChange`: the update it sends, if any. */
  function SpeedMultiplierUpdate(parsed: Option<real>): (u: Option<PartialSettings>)
    ensures u.Some? <==> Accepted(parsed)
    ensures u.Some? ==> forall f :: Lookup(u.value, f) == if f == SpeedMultiplier then Some(Number(parsed.value)) else None
  {
    if Accepted(parsed) then Some(Only(SpeedMultiplier, Number(parsed.value))) else None
  }

  /** `handleJumpMultiplierChange`: the update it sends, if any. */
  function JumpMultiplierUpdate(parsed: Option<real>): (u: Option<PartialSettings>)
    ensures u.Some? <==> Accepted(parsed)
    ensures u.Some? ==> forall f :: Lookup(u.value, f) == if f == JumpMultiplier then Some(Number(parsed.value)) else None
  {
    if Accepted(parsed) then Some(Only(JumpMultiplier, Number(parsed.value))) else None
  }

  /** An accepted multiplier is stored as typed, never rounded or clamped,
      and a value the handler lets through is already in the clamp's range. */
  lemma AcceptedValueKept(s: Settings, parsed: Option<real>)
    requires Accepted(parsed)
    ensures Overlay(s, SpeedMultiplierUpdate(parsed).value) == s.(speedMultiplier := parsed.value)
    ensures Overlay(s, JumpMultiplierUpdate(parsed).value) == s.(jumpMultiplier := parsed.value)
    ensures 1 <= ClampMultiplier(parsed.value) <= 10
  {
    assert Lookup(SpeedMultiplierUpdate(parsed).value, Fly) == None;
    assert Lookup(JumpMultiplierUpdate(parsed).value, Fly) == None;
  }

  /** Example: the guard is not the clamp. 2.5 is kept as 2.5 where the clamp gives 3,
      11 is dropped where the clamp gives 10, and `NaN` is dropped. */
  lemma GuardVersusClampExample()
    ensures SpeedMultiplierUpdate(Some(2.5)).Some? && ClampMultiplier(2.5) == 3
    ensures SpeedMultiplierUpdate(Some(11.0)).None? && ClampMultiplier(11.0) == 10
    ensures SpeedMultiplierUpdate(None).None?
    ensures SpeedMultiplierUpdate(Some(1.0)).Some? && SpeedMultiplierUpdate(Some(10.0)).Some?
  {
    assert Round(2.5) == 3;
    assert Round(11.0) == 11;
  }

  /** The five switches on the page. */
  datatype Switch = FlySwitch | SpeedSwitch | JumpSwitch | MonstersSwitch | RainbowSwitch

  function SwitchField(sw: Switch): (f: Field)
    ensures !IsMultiplier(f)
  {
    match sw
    case FlySwitch => Fly
    case SpeedSwitch => SuperSpeed
    case JumpSwitch => SuperJump
    case MonstersSwitch => DisableMonsters
    case RainbowSwitch => RainbowBackground
  }

  /** Distinct switches drive distinct fields. */
  lemma SwitchFieldInjective(a: Switch, b: Switch)
    requires SwitchField(a) == SwitchField(b)
    ensures a == b
  {
  }

  /** `onCheckedChange`: the one-field update a switch sends. */
  function SwitchUpdate(sw: Switch, checked: bool): (u: PartialSettings)
    ensures forall f :: Lookup(u, f) == if f == SwitchField(sw) then Some(Flag(checked)) else None
  {
    Only(SwitchField(sw), Flag(checked))
  }

  /** Flipping a switch sets its field to the checked state and leaves every
      other field as it was. */
  lemma SwitchSetsOnlyItsField(s: Settings, sw: Switch, checked: bool, f: Field)
    ensures Get(Overlay(s, SwitchUpdate(sw, checked)), f) == if f == SwitchField(sw) then Flag(checked) else Get(s, f)
  {
  }
}
