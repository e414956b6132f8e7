/** The weapon assets and the attack / cooldown / weapon-switch rules shared
    by the character controllers (SheriffBehavior in its two versions and
    BanditBehavior). Each controller is a class in its own module whose
    methods are specified by the functions here. */
module Weapons {

  datatype WeaponID = REVOLVER | SHOTGUN | PISTOL | DYNAMITE | COCKTAILS | FIRECRACKERS

  /** One WeaponData asset. `ammo` is the only field the scripts write: an
      attack decrements the asset's own count, so every weapon keeps its
      remaining rounds while another one is equipped. */
  datatype WeaponData = WeaponData(
    weapon: WeaponID,
    ammo: int,
    maxAmmo: int,
    dmg: real,
    chargeDmg: real,
    standardCD: real,
    chargeCD: real)

  /** The assets the engine loads by name ("SHOTGUN_DATA", ...), keyed here by
      the weapon they describe. */
  type Assets = map<WeaponID, WeaponData>

  /** The Sheriff's guns and the Bandit's explosives. */
  const Guns: set<WeaponID> := {REVOLVER, SHOTGUN, PISTOL}
  const Explosives: set<WeaponID> := {DYNAMITE, COCKTAILS, FIRECRACKERS}

  /** The ring a weapon belongs to. */
  function Ring(w: WeaponID): (ring: set<WeaponID>)
    ensures w in ring
    ensures ring == Guns || ring == Explosives
  {
    match w
    case REVOLVER | SHOTGUN | PISTOL => Guns
    case DYNAMITE | COCKTAILS | FIRECRACKERS => Explosives
  }

  /** The weapon SwitchWeapon loads after `w`:
      REVOLVER -> SHOTGUN -> PISTOL -> REVOLVER for the Sheriff,
      DYNAMITE -> COCKTAILS -> FIRECRACKERS -> DYNAMITE for the Bandit. */
  function Next(w: WeaponID): (n: WeaponID)
    ensures n != w
    ensures Ring(n) == Ring(w)
  {
    match w
    case REVOLVER => SHOTGUN
    case SHOTGUN => PISTOL
    case PISTOL => REVOLVER
    case DYNAMITE => COCKTAILS
    case COCKTAILS => FIRECRACKERS
    case FIRECRACKERS => DYNAMITE
  }

  /** The weapon equipped after `k` switches starting from `w`. */
  function Switches(w: WeaponID, k: nat): WeaponID
  {
    if k == 0 then w else Next(Switches(w, k - 1))
  }

  /** Three switches in a row restore any weapon. */
  lemma ThreeSwitches(w: WeaponID, k: nat)
    ensures Switches(w, k + 3) == Switches(w, k)
  {
    var x := Switches(w, k);
    assert Switches(w, k + 2) == Next(Next(x));
    match x
    case REVOLVER =>
    case SHOTGUN =>
    case PISTOL =>
    case DYNAMITE =>
    case COCKTAILS =>
    case FIRECRACKERS =>
  }

  /** Weapon switching has period three: only the number of switches modulo
      three matters, and three switches restore the starting weapon. */
  lemma {:induction false} SwitchPeriod(w: WeaponID, k: nat)
    ensures Switches(w, k) == Switches(w, k % 3)
    ensures Switches(w, 3 * k) == w
  {
    if k >= 3 {
      SwitchPeriod(w, k - 3);
      ThreeSwitches(w, k - 3);
    }
    if k > 0 {
      SwitchPeriod(w, k - 1);
      ThreeSwitches(w, 3 * (k - 1));
    }
  }

  datatype AttackKind = Quick | Charge

  function Other(kind: AttackKind): AttackKind
  {
    if kind == Quick then Charge else Quick
  }

  /** What an attack attempt reports: "Out of Ammo", "... is on cooldown", or
      a shot dealing the weapon's damage for that kind. */
  datatype Outcome = OutOfAmmo | OnCooldown | Fired(damage: real)

  function Damage(w: WeaponData, kind: AttackKind): real
  {
    if kind == Quick then w.dmg else w.chargeDmg
  }

  /** Every asset in the table describes the weapon it is stored under. */
  predicate Catalogued(assets: Assets)
  {
    forall id :: id in assets ==> assets[id].weapon == id
  }

  /** A character's weapon state: the asset table, the weapon equipped, and
      the two ready flags (atkAvailable for the quick attack, chgAtkAvailable
      for the charged attack). */
  datatype Loadout = Loadout(assets: Assets, current: WeaponID, atkAvailable: bool, chgAtkAvailable: bool)
  {
    /** The equipped weapon and every weapon of its ring have an asset. */
    predicate Valid()
    {
      Ring(current) <= assets.Keys && Catalogued(assets)
    }

    function Ready(kind: AttackKind): bool
    {
      if kind == Quick then atkAvailable else chgAtkAvailable
    }

    function Weapon(): WeaponData
      requires current in assets
    {
      assets[current]
    }
  }

  datatype Attempt = Attempt(next: Loadout, outcome: Outcome)

  /** One attack attempt of the given kind. The ammo check comes first, the
      ready flag second; a shot clears that kind's flag and takes one round
      from the equipped weapon's asset. */
  function Attack(l: Loadout, kind: AttackKind): (r: Attempt)
    requires l.current in l.assets
    ensures l.Weapon().ammo == 0 ==> r == Attempt(l, OutOfAmmo)
    ensures l.Weapon().ammo != 0 && !l.Ready(kind) ==> r == Attempt(l, OnCooldown)
    ensures r.outcome.Fired? <==> l.Weapon().ammo != 0 && l.Ready(kind)
    ensures r.outcome.Fired? ==>
      && r.outcome.damage == Damage(l.Weapon(), kind)
      && !r.next.Ready(kind)
      && r.next.Ready(Other(kind)) == l.Ready(Other(kind))
      && r.next.current == l.current
      && r.next.assets.Keys == l.assets.Keys
      && r.next.Weapon() == l.Weapon().(ammo := l.Weapon().ammo - 1)
      && (forall id :: id in l.assets && id != l.current ==> r.next.assets[id] == l.assets[id])
    ensures l.Valid() ==> r.next.Valid()
  {
    var w := l.Weapon();
    if w.ammo == 0 then
      Attempt(l, OutOfAmmo)
    else if l.Ready(kind) then
      var assets' := l.assets[l.current := w.(ammo := w.ammo - 1)];
      var next := if kind == Quick then l.(assets := assets', atkAvailable := false)
                  else l.(assets := assets', chgAtkAvailable := false);
      Attempt(next, Fired(Damage(w, kind)))
    else
      Attempt(l, OnCooldown)
  }

  /** A cooldown of the given kind running out. */
  function Cooldown(l: Loadout, kind: AttackKind): (r: Loadout)
    ensures r.Ready(kind)
    ensures r.Ready(Other(kind)) == l.Ready(Other(kind))
    ensures r.assets == l.assets && r.current == l.current
  {
    if kind == Quick then l.(atkAvailable := true) else l.(chgAtkAvailable := true)
  }

  /** SwitchWeapon: load the next weapon of the ring and make both attacks
      ready. No asset is touched, so no weapon is refilled. */
  function Switch(l: Loadout): (r: Loadout)
    requires l.Valid()
    ensures r.Valid()
    ensures r.current == Next(l.current)
    ensures r.assets == l.assets
    ensures r.atkAvailable && r.chgAtkAvailable
  {
    Loadout(l.assets, Next(l.current), true, true)
  }

  /** The events a loadout reacts to. */
  datatype Event = Attempted(kind: AttackKind) | CooledDown(kind: AttackKind) | Switched

  /** The loadout after one event, and whether that event fired a shot. */
  function Step(l: Loadout, e: Event): (r: (Loadout, bool))
    requires l.Valid()
    ensures r.0.Valid()
    ensures r.1 <==> e.Attempted? && Attack(l, e.kind).outcome.Fired?
  {
    match e
    case Attempted(kind) =>
      var a := Attack(l, kind);
      (a.next, a.outcome.Fired?)
    case CooledDown(kind) => (Cooldown(l, kind), false)
    case Switched => (Switch(l), false)
  }

  /** The loadout after a sequence of events, and how many shots were fired. */
  function Replay(l: Loadout, events: seq<Event>): (r: (Loadout, nat))
    requires l.Valid()
    ensures r.0.Valid()
    ensures r.0.assets.Keys == l.assets.Keys
    ensures r.1 <= |events|
    decreases |events|
  {
    if events == [] then (l, 0)
    else
      var s := Step(l, events[0]);
      var rest := Replay(s.0, events[1..]);
      (rest.0, rest.1 + if s.1 then 1 else 0)
  }

  predicate AmmoNonNegative(assets: Assets)
  {
    forall id :: id in assets ==> assets[id].ammo >= 0
  }

  /** If every weapon starts with a non-negative round count, no sequence of
      attacks, cooldowns and switches ever makes one negative: the
      `ammo == 0` guard stops the decrement at zero. */
  lemma {:induction false} AmmoStaysNonNegative(l: Loadout, events: seq<Event>)
    requires l.Valid() && AmmoNonNegative(l.assets)
    ensures AmmoNonNegative(Replay(l, events).0.assets)
    decreases |events|
  {
    if events != [] {
      var s := Step(l, events[0]);
      assert AmmoNonNegative(s.0.assets);
      AmmoStaysNonNegative(s.0, events[1..]);
    }
  }

  /** `after` differs from `before` only in round counts, and none of them
      went up: same weapons, same MaxAmmo, damage and cooldowns. */
  ghost predicate NoRefill(before: Assets, after: Assets)
  {
    && before.Keys == after.Keys
    && forall id :: id in before ==>
         after[id] == before[id].(ammo := after[id].ammo) && after[id].ammo <= before[id].ammo
  }

  /** No sequence of attacks, cooldowns and switches raises any weapon's
      round count or changes anything else in its asset: nothing refills. */
  lemma {:induction false} NeverRefills(l: Loadout, events: seq<Event>)
    requires l.Valid()
    ensures NoRefill(l.assets, Replay(l, events).0.assets)
    decreases |events|
  {
    if events != [] {
      var s := Step(l, events[0]);
      assert NoRefill(l.assets, s.0.assets);
      NeverRefills(s.0, events[1..]);
    }
  }

  predicate AmmoInRange(assets: Assets)
  {
    forall id :: id in assets ==> 0 <= assets[id].ammo <= assets[id].maxAmmo
  }

  /** Every weapon's round count stays between 0 and its MaxAmmo over any
      sequence of attacks, cooldowns and switches, if it starts there. */
  lemma AmmoWithinMax(l: Loadout, events: seq<Event>)
    requires l.Valid() && AmmoInRange(l.assets)
    ensures AmmoInRange(Replay(l, events).0.assets)
  {
    AmmoStaysNonNegative(l, events);
    NeverRefills(l, events);
  }

  /** The rounds held by the three weapons of a ring. */
  function RingAmmo(assets: Assets, w: WeaponID): int
    requires Ring(w) <= assets.Keys
  {
    if w in Guns then assets[REVOLVER].ammo + assets[SHOTGUN].ammo + assets[PISTOL].ammo
    else assets[DYNAMITE].ammo + assets[COCKTAILS].ammo + assets[FIRECRACKERS].ammo
  }

  /** One event keeps the ring and costs exactly one round if it fires. */
  lemma StepAmmo(l: Loadout, e: Event)
    requires l.Valid()
    ensures Ring(Step(l, e).0.current) == Ring(l.current)
    ensures RingAmmo(Step(l, e).0.assets, l.current) + (if Step(l, e).1 then 1 else 0)
            == RingAmmo(l.assets, l.current)
  {
  }

  /** Every shot costs exactly one round and nothing else changes a round
      count: switching never refills. */
  lemma {:induction false} AmmoAccounting(l: Loadout, events: seq<Event>)
    requires l.Valid()
    ensures Ring(Replay(l, events).0.current) == Ring(l.current)
    ensures RingAmmo(Replay(l, events).0.assets, l.current) + Replay(l, events).1
            == RingAmmo(l.assets, l.current)
    decreases |events|
  {
    if events != [] {
      var s := Step(l, events[0]);
      StepAmmo(l, events[0]);
      AmmoAccounting(s.0, events[1..]);
    }
  }
}
