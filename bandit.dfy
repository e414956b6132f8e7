/** The Bandit controller (CharacterScripts/Bandit/BanditBehavior.cs):
    explosives DYNAMITE -> COCKTAILS -> FIRECRACKERS, one attack per button
    press, cooldown timers as explicit expiry methods, and collision handlers
    that do nothing yet. */
module BanditCharacter {
  import opened Weapons
  import opened Screen

  class BanditBehavior {
    var assets: Assets
    var current: WeaponID
    var chgAtkAvailable: bool
    var atkAvailable: bool
    var playerhealth: int
    var position: Vec2

    function State(): Loadout
      reads this
    {
      Loadout(assets, current, atkAvailable, chgAtkAvailable)
    }

    /** The equipped weapon is an explosive with its asset loaded. */
    ghost predicate Valid()
      reads this
    {
      State().Valid() && current in Explosives
    }

    /** The field initialisers and Awake: `weapon` is the serialized asset of
        `start`, and `health` the serialized health (100 unless the scene
        sets another value). */
    constructor (assets: Assets, start: WeaponID, health: int, position: Vec2)
      requires start in Explosives && Loadout(assets, start, true, true).Valid()
      ensures Valid()
      ensures State() == Loadout(assets, start, true, true)
      ensures playerhealth == health && this.position == position
    {
      this.assets := assets;
      current := start;
      chgAtkAvailable := true;
      atkAvailable := true;
      playerhealth := health;
      this.position := position;
    }

    /** The charged attack, once per press. */
    method ChargeAtk() returns (outcome: Outcome)
      requires Valid()
      modifies this`assets, this`chgAtkAvailable
      ensures Valid()
      ensures Attack(old(State()), Charge) == Attempt(State(), outcome)
    {
      var weapon := assets[current];
      if weapon.ammo == 0 {
        outcome := OutOfAmmo;
      } else {
        if chgAtkAvailable {
          chgAtkAvailable := false;
          assets := assets[current := weapon.(ammo := weapon.ammo - 1)];
          outcome := Fired(weapon.chargeDmg);
        } else {
          outcome := OnCooldown;
        }
      }
    }

    /** The charged-attack cooldown running out. */
    method ChargeWeaponCoolDown()
      requires Valid()
      modifies this`chgAtkAvailable
      ensures Valid()
      ensures State() == Cooldown(old(State()), Charge)
    {
      chgAtkAvailable := true;
    }

    /** The quick attack, once per press. */
    method QuickAtk() returns (outcome: Outcome)
      requires Valid()
      modifies this`assets, this`atkAvailable
      ensures Valid()
      ensures Attack(old(State()), Quick) == Attempt(State(), outcome)
    {
      var weapon := assets[current];
      if weapon.ammo == 0 {
        outcome := OutOfAmmo;
      } else {
        if atkAvailable {
          atkAvailable := false;
          assets := assets[current := weapon.(ammo := weapon.ammo - 1)];
          outcome := Fired(weapon.dmg);
        } else {
          outcome := OnCooldown;
        }
      }
    }

    /** The quick-attack cooldown running out. */
    method WeaponCoolDown()
      requires Valid()
      modifies this`atkAvailable
      ensures Valid()
      ensures State() == Cooldown(old(State()), Quick)
    {
      atkAvailable := true;
    }

    /** Load the next explosive and reset both cooldowns; no asset changes. */
    method SwitchWeapon()
      requires Valid()
      modifies this`current, this`chgAtkAvailable, this`atkAvailable
      ensures Valid()
      ensures State() == Switch(old(State()))
    {
      var fileName: WeaponID;
      var w := assets[current].weapon;
      if w == DYNAMITE {
        fileName := COCKTAILS;
      } else if w == COCKTAILS {
        fileName := FIRECRACKERS;
      } else {
        fileName := DYNAMITE;
      }
      current := fileName;
      chgAtkAvailable := true;
      atkAvailable := true;
    }

    /** The translation step of FixedUpdate followed by its clamp, `delta`
        standing for the frame's movement velocity. */
    method MoveStep(delta: Vec2)
      modifies this`position
      ensures OnScreen(position)
      ensures position == Clamp(old(position).Plus(delta))
    {
      position := position.Plus(delta);
      ClampPlayer(position);
    }

    /** Keep the player on screen. */
    method ClampPlayer(pos: Vec2)
      modifies this`position
      ensures OnScreen(position)
      ensures OnScreen(pos) ==> position == pos
      ensures position == Clamp(pos)
    {
      position := Clamp(pos);
    }

    /** Contact with a tumble fiend: both branches are still empty. */
    method OnCollisionEnter2D(name: string)
      ensures playerhealth == old(playerhealth)
    {
    }

    /** Entering an explosion: the branch is still empty. */
    method OnTriggerEnter2D(tag: string)
      ensures playerhealth == old(playerhealth)
    {
    }
  }
}
