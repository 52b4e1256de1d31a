/** The status bar: how many of the five switches are on, one badge per
    switch that is on, and "No mods active" when none is. */
module ModStatusBar {
  import opened ModSettings

  /** `filter(Boolean).length`. */
  function CountTrue(bs: seq<bool>): (n: nat)
    ensures n <= |bs|
    ensures n == 0 <==> forall i :: 0 <= i < |bs| ==> !bs[i]
    ensures n == |bs| <==> forall i :: 0 <= i < |bs| ==> bs[i]
  {
    if bs == [] then 0
    else (if bs[0] then 1 else 0) + CountTrue(bs[1..])
  }

  /** The five switches, in the order the bar lists them. */
  function Flags(s: Settings): seq<bool> {
    [s.fly, s.superSpeed, s.superJump, s.disableMonsters, s.rainbowBackground]
  }

  function ActiveModsCount(s: Settings): (n: nat)
    ensures n <= 5
    ensures n == 0 <==> !s.fly && !s.superSpeed && !s.superJump && !s.disableMonsters && !s.rainbowBackground
  {
    var flags := Flags(s);
    var n := CountTrue(flags);
    assert (forall i :: 0 <= i < 5 ==> !flags[i]) <==> !flags[0] && !flags[1] && !flags[2] && !flags[3] && !flags[4];
    n
  }

  /** "No mods active" shows exactly when every switch is off. */
  function ShowsNoModsActive(s: Settings): (shown: bool)
    ensures shown <==> !s.fly && !s.superSpeed && !s.superJump && !s.disableMonsters && !s.rainbowBackground
  {
    ActiveModsCount(s) == 0
  }

  datatype Badge = FlyBadge | SpeedBadge(multiplier: real) | JumpBadge(multiplier: real) | NoMonstersBadge | RainbowBadge

  function BadgeIf(on: bool, b: Badge): seq<Badge> {
    if on then [b] else []
  }

  /** The badges the bar renders, in order; the speed and jump badges carry
      their multipliers. */
  function Badges(s: Settings): (r: seq<Badge>)
    ensures FlyBadge in r <==> s.fly
    ensures SpeedBadge(s.speedMultiplier) in r <==> s.superSpeed
    ensures JumpBadge(s.jumpMultiplier) in r <==> s.superJump
    ensures NoMonstersBadge in r <==> s.disableMonsters
    ensures RainbowBadge in r <==> s.rainbowBackground
  {
    BadgeIf(s.fly, FlyBadge) + BadgeIf(s.superSpeed, SpeedBadge(s.speedMultiplier))
      + BadgeIf(s.superJump, JumpBadge(s.jumpMultiplier)) + BadgeIf(s.disableMonsters, NoMonstersBadge)
      + BadgeIf(s.rainbowBackground, RainbowBadge)
  }

  function Indicator(b: bool): nat {
    if b then 1 else 0
  }

  lemma {:induction false} CountFive(a: bool, b: bool, c: bool, d: bool, e: bool)
    ensures CountTrue([a, b, c, d, e]) == Indicator(a) + Indicator(b) + Indicator(c) + Indicator(d) + Indicator(e)
  {
    assert [a, b, c, d, e][1..] == [b, c, d, e];
    assert [b, c, d, e][1..] == [c, d, e];
    assert [c, d, e][1..] == [d, e];
    assert [d, e][1..] == [e];
    assert [e][1..] == [];
    assert CountTrue([e]) == Indicator(e);
    assert CountTrue([d, e]) == Indicator(d) + Indicator(e);
    assert CountTrue([c, d, e]) == Indicator(c) + Indicator(d) + Indicator(e);
    assert CountTrue([b, c, d, e]) == Indicator(b) + Indicator(c) + Indicator(d) + Indicator(e);
  }

  /** The number in the header is the number of badges shown. */
  lemma {:induction false} CountIsBadgeCount(s: Settings)
    ensures ActiveModsCount(s) == |Badges(s)|
  {
    CountFive(s.fly, s.superSpeed, s.superJump, s.disableMonsters, s.rainbowBackground);
  }

  /** The multipliers never change the count. */
  lemma MultipliersIgnored(s: Settings, speed: real, jump: real)
    ensures ActiveModsCount(s.(speedMultiplier := speed, jumpMultiplier := jump)) == ActiveModsCount(s)
  {
  }

  /** Turning one switch from off to on raises the count by exactly one. */
  lemma {:induction false} TurningOnAddsOne(s: Settings, f: Field)
    requires !IsMultiplier(f) && Get(s, f) == Flag(false)
    ensures ActiveModsCount(Overlay(s, Only(f, Flag(true)))) == ActiveModsCount(s) + 1
  {
    var t := Overlay(s, Only(f, Flag(true)));
    CountFive(s.fly, s.superSpeed, s.superJump, s.disableMonsters, s.rainbowBackground);
    CountFive(t.fly, t.superSpeed, t.superJump, t.disableMonsters, t.rainbowBackground);
    assert forall g :: Get(t, g) == if g == f then Flag(true) else Get(s, g);
  }
}
