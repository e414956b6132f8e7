/** The older Sheriff controller (CharacterScripts/SheriffBehavior.cs, the
    same class name as the current one): guns REVOLVER -> SHOTGUN -> PISTOL,
    one attack per button press, and every bullet it fires added to the
    `currBullets` list. That list is declared and never assigned, so it is
    null: an attack that passes both guards instantiates its bullet and then
    throws on `currBullets.Add`, before the ready flag or the ammo change. */
module LegacySheriffCharacter {
  import opened Weapons
  import opened Screen
  import opened Options

  /** A bullet instantiated at the attack point. */
  datatype Bullet = Bullet(at: Vec2)

  /** How one attack call ends: normally, with the attempt's outcome, or by
      the null-reference exception on the never-assigned bullet list. */
  datatype Ending = Completed(outcome: Outcome) | NullBulletList

  class SheriffBehavior {
    var assets: Assets
    var current: WeaponID
    var chgAtkAvailable: bool
    var atkAvailable: bool
    var position: Vec2
    /** The bullet list; None is the null the source leaves it as. */
    var currBullets: Option<seq<Bullet>>
    /** Every bullet instantiated, whether or not the list received it. */
    ghost var scene: seq<Bullet>

    function State(): Loadout
      reads this
    {
      Loadout(assets, current, atkAvailable, chgAtkAvailable)
    }

    /** The equipped weapon is a gun with its asset loaded. */
    ghost predicate Valid()
      reads this
    {
      State().Valid() && current in Guns
    }

    /** The field initialisers and Awake; `currBullets` stays null. */
    constructor (assets: Assets, start: WeaponID, position: Vec2)
      requires start in Guns && Loadout(assets, start, true, true).Valid()
      ensures Valid()
      ensures State() == Loadout(assets, start, true, true)
      ensures this.position == position && currBullets == None && scene == []
    {
      this.assets := assets;
      current := start;
      chgAtkAvailable := true;
      atkAvailable := true;
      this.position := position;
      currBullets := None;
      scene := [];
    }

    /** The charged attack, once per press; `atkPoint` is the attack point's
        position. */
    method ChargeAtk(atkPoint: Vec2) returns (ending: Ending)
      requires Valid()
      modifies this`assets, this`chgAtkAvailable, this`currBullets, this`scene
      ensures Valid()
      ensures ending == NullBulletList <==>
                old(currBullets).None? && Attack(old(State()), Charge).outcome.Fired?
      ensures ending == NullBulletList ==>
                State() == old(State()) && currBullets == None && scene == old(scene) + [Bullet(atkPoint)]
      ensures ending.Completed? ==> Attack(old(State()), Charge) == Attempt(State(), ending.outcome)
      ensures ending.Completed? && ending.outcome.Fired? ==>
                currBullets == Some(old(currBullets).value + [Bullet(atkPoint)])
                && scene == old(scene) + [Bullet(atkPoint)]
      ensures ending.Completed? && !ending.outcome.Fired? ==>
                currBullets == old(currBullets) && scene == old(scene)
    {
      var weapon := assets[current];
      if weapon.ammo == 0 {
        ending := Completed(OutOfAmmo);
      } else {
        if chgAtkAvailable {
          var b := Bullet(atkPoint);
          scene := scene + [b];
          if currBullets.None? {
            return NullBulletList;
          }
          currBullets := Some(currBullets.value + [b]);
          chgAtkAvailable := false;
          assets := assets[current := weapon.(ammo := weapon.ammo - 1)];
          ending := Completed(Fired(weapon.chargeDmg));
        } else {
          ending := Completed(OnCooldown);
        }
      }
    }

    /** The charged-attack cooldown running out. */
    method ChargeWeaponCoolDown()
      requires Valid()
      modifies this`chgAtkAvailable
      ensures Valid()
      ensures State() == Cooldown(old(State()), Charge)
    {
      chgAtkAvailable := true;
    }

    /** The quick attack, once per press; `atkPoint` is the attack point's
        position. */
    method QuickAtk(atkPoint: Vec2) returns (ending: Ending)
      requires Valid()
      modifies this`assets, this`atkAvailable, this`currBullets, this`scene
      ensures Valid()
      ensures ending == NullBulletList <==>
                old(currBullets).None? && Attack(old(State()), Quick).outcome.Fired?
      ensures ending == NullBulletList ==>
                State() == old(State()) && currBullets == None && scene == old(scene) + [Bullet(atkPoint)]
      ensures ending.Completed? ==> Attack(old(State()), Quick) == Attempt(State(), ending.outcome)
      ensures ending.Completed? && ending.outcome.Fired? ==>
                currBullets == Some(old(currBullets).value + [Bullet(atkPoint)])
                && scene == old(scene) + [Bullet(atkPoint)]
      ensures ending.Completed? && !ending.outcome.Fired? ==>
                currBullets == old(currBullets) && scene == old(scene)
    {
      var weapon := assets[current];
      if weapon.ammo == 0 {
        ending := Completed(OutOfAmmo);
      } else {
        if atkAvailable {
          var b := Bullet(atkPoint);
          scene := scene + [b];
          if currBullets.None? {
            return NullBulletList;
          }
          currBullets := Some(currBullets.value + [b]);
          atkAvailable := false;
          assets := assets[current := weapon.(ammo := weapon.ammo - 1)];
          ending := Completed(Fired(weapon.dmg));
        } else {
          ending := Completed(OnCooldown);
        }
      }
    }

    /** The quick-attack cooldown running out. */
    method WeaponCoolDown()
      requires Valid()
      modifies this`atkAvailable
      ensures Valid()
      ensures State() == Cooldown(old(State()), Quick)
    {
      atkAvailable := true;
    }

    /** Load the next gun and reset both cooldowns; no asset and no bullet
        changes. */
    method SwitchWeapon()
      requires Valid()
      modifies this`current, this`chgAtkAvailable, this`atkAvailable
      ensures Valid()
      ensures State() == Switch(old(State()))
    {
      var fileName: WeaponID;
      var w := assets[current].weapon;
      if w == REVOLVER {
        fileName := SHOTGUN;
      } else if w == SHOTGUN {
        fileName := PISTOL;
      } else {
        fileName := REVOLVER;
      }
      current := fileName;
      chgAtkAvailable := true;
      atkAvailable := true;
    }

    /** The translation step of FixedUpdate followed by its clamp, `delta`
        standing for the frame's movement velocity. */
    method MoveStep(delta: Vec2)
      modifies this`position
      ensures OnScreen(position)
      ensures position == Clamp(old(position).Plus(delta))
    {
      position := position.Plus(delta);
      ClampPlayer(position);
    }

    /** Keep the player on screen. */
    method ClampPlayer(pos: Vec2)
      modifies this`position
      ensures OnScreen(position)
      ensures OnScreen(pos) ==> position == pos
      ensures position == Clamp(pos)
    {
      position := Clamp(pos);
    }
  }
}
