/** The current Sheriff controller (CharacterScripts/Sheriff/SheriffBehavior.cs):
    guns REVOLVER -> SHOTGUN -> PISTOL, an Ammo/MaxAmmo mirror of the equipped
    asset for the UI, a weapon number, a "weapon changed" pulse, and health
    that collisions lower. Each attack method is one pass of the source's
    auto-fire loop; the cooldown and weapon-change timers become the explicit
    expiry methods. */
module SheriffCharacter {
  import opened Weapons
  import opened Screen

  /** A bullet the Sheriff instantiated: where, and the damage it carries. */
  datatype Shot = Shot(at: Vec2, damage: real)

  /** The number the UI shows for each gun. */
  function WeaponNumber(w: WeaponID): (n: int)
    requires w in Guns
    ensures 1 <= n <= 3
    ensures w == REVOLVER <==> n == 1
    ensures w == SHOTGUN <==> n == 2
  {
    match w
    case REVOLVER => 1
    case SHOTGUN => 2
    case PISTOL => 3
  }

  class SheriffBehavior {
    var assets: Assets
    var current: WeaponID
    var chgAtkAvailable: bool
    var atkAvailable: bool
    var ammo: int
    var maxAmmo: int
    var playerhealth: int
    var weaponChanged: bool
    var weaponNumber: int
    var position: Vec2
    /** Every bullet instantiated so far, oldest first. */
    ghost var shots: seq<Shot>

    function State(): Loadout
      reads this
    {
      Loadout(assets, current, atkAvailable, chgAtkAvailable)
    }

    /** The equipped weapon is a gun with its asset loaded, and the ammo
        fields mirror it. */
    ghost predicate Valid()
      reads this
    {
      && State().Valid()
      && current in Guns
      && ammo == assets[current].ammo
      && maxAmmo == assets[current].maxAmmo
    }

    /** The weapon number shown is the equipped gun's. The initialiser sets
        it to 1 whatever gun is serialized, so it holds from the start only
        for the revolver, and after every switch. */
    predicate NumberInSync()
      reads this
    {
      current in Guns && weaponNumber == WeaponNumber(current)
    }

    /** The field initialisers and Awake: `start` is the serialized gun, whose
        counts are copied to the mirror; the weapon number starts at 1 (and
        the sprite at the revolver's) whichever gun that is. */
    constructor (assets: Assets, start: WeaponID, position: Vec2)
      requires start in Guns && Loadout(assets, start, true, true).Valid()
      ensures Valid()
      ensures State() == Loadout(assets, start, true, true)
      ensures ammo == assets[start].ammo && maxAmmo == assets[start].maxAmmo
      ensures playerhealth == 200 && !weaponChanged && weaponNumber == 1
      ensures NumberInSync() <==> start == REVOLVER
      ensures this.position == position && shots == []
    {
      this.assets := assets;
      current := start;
      chgAtkAvailable := true;
      atkAvailable := true;
      playerhealth := 200;
      weaponChanged := false;
      weaponNumber := 1;
      this.position := position;
      shots := [];
      ammo := assets[start].ammo;
      maxAmmo := assets[start].maxAmmo;
    }

    /** One pass of the charged-attack loop. */
    method ChargeAtk() returns (outcome: Outcome)
      requires Valid()
      modifies this`assets, this`chgAtkAvailable, this`ammo, this`shots
      ensures Valid()
      ensures Attack(old(State()), Charge) == Attempt(State(), outcome)
      ensures shots == old(shots) + if outcome.Fired? then [Shot(position, outcome.damage)] else []
    {
      var weapon := assets[current];
      if weapon.ammo == 0 {
        outcome := OutOfAmmo;
      } else {
        if chgAtkAvailable {
          shots := shots + [Shot(position, weapon.chargeDmg)];
          chgAtkAvailable := false;
          assets := assets[current := weapon.(ammo := weapon.ammo - 1)];
          ammo := assets[current].ammo;
          outcome := Fired(weapon.chargeDmg);
        } else {
          outcome := OnCooldown;
        }
      }
    }

    /** The charged-attack cooldown running out. */
    method ChargeWeaponCoolDown()
      requires Valid()
      modifies this`chgAtkAvailable
      ensures Valid()
      ensures State() == Cooldown(old(State()), Charge)
    {
      chgAtkAvailable := true;
    }

    /** One pass of the quick-attack loop. */
    method QuickAtk() returns (outcome: Outcome)
      requires Valid()
      modifies this`assets, this`atkAvailable, this`ammo, this`shots
      ensures Valid()
      ensures Attack(old(State()), Quick) == Attempt(State(), outcome)
      ensures shots == old(shots) + if outcome.Fired? then [Shot(position, outcome.damage)] else []
    {
      var weapon := assets[current];
      if weapon.ammo == 0 {
        outcome := OutOfAmmo;
      } else {
        if atkAvailable {
          shots := shots + [Shot(position, weapon.dmg)];
          atkAvailable := false;
          assets := assets[current := weapon.(ammo := weapon.ammo - 1)];
          ammo := assets[current].ammo;
          outcome := Fired(weapon.dmg);
        } else {
          outcome := OnCooldown;
        }
      }
    }

    /** The quick-attack cooldown running out. */
    method WeaponCoolDown()
      requires Valid()
      modifies this`atkAvailable
      ensures Valid()
      ensures State() == Cooldown(old(State()), Quick)
    {
      atkAvailable := true;
    }

    /** Load the next gun, reset both cooldowns, copy the new gun's stored
        counts to the mirror (no refill) and raise the weapon-changed pulse. */
    method SwitchWeapon()
      requires Valid()
      modifies this`current, this`chgAtkAvailable, this`atkAvailable, this`ammo, this`maxAmmo,
               this`weaponNumber, this`weaponChanged
      ensures Valid()
      ensures State() == Switch(old(State()))
      ensures ammo == assets[current].ammo && maxAmmo == assets[current].maxAmmo
      ensures NumberInSync() && weaponNumber == WeaponNumber(current)
      ensures weaponChanged
    {
      var next: WeaponID;
      var w := assets[current].weapon;
      if w == REVOLVER {
        next := SHOTGUN;
        weaponNumber := 2;
      } else if w == SHOTGUN {
        next := PISTOL;
        weaponNumber := 3;
      } else {
        next := REVOLVER;
        weaponNumber := 1;
      }
      current := next;
      chgAtkAvailable := true;
      atkAvailable := true;
      ammo := assets[current].ammo;
      maxAmmo := assets[current].maxAmmo;
      weaponChanged := true;
    }

    /** The weapon-changed pause running out. */
    method WeaponChange()
      modifies this`weaponChanged
      ensures !weaponChanged
    {
      weaponChanged := false;
    }

    /** The translation step of FixedUpdate, `delta` standing for the
        frame's movement velocity. The clamp call that follows it is
        commented out in this version, so the position is not clamped. */
    method MoveStep(delta: Vec2)
      modifies this`position
      ensures position == old(position).Plus(delta)
    {
      position := position.Plus(delta);
    }

    /** Keep the player on screen. */
    method ClampPlayer(pos: Vec2)
      modifies this`position
      ensures OnScreen(position)
      ensures OnScreen(pos) ==> position == pos
      ensures position == Clamp(pos)
    {
      position := Clamp(pos);
    }

    /** Contact with a tumble fiend, by the other object's name. */
    method OnCollisionEnter2D(name: string)
      modifies this`playerhealth
      ensures name == "Large TumbleFiend(Clone)" || name == "Large TumbleFiend" ==>
                playerhealth == old(playerhealth) - 5
      ensures name == "Small TumbleFiend(Clone)" ==> playerhealth == old(playerhealth) - 3
      ensures name !in {"Large TumbleFiend(Clone)", "Large TumbleFiend", "Small TumbleFiend(Clone)"} ==>
                playerhealth == old(playerhealth)
    {
      if name == "Large TumbleFiend(Clone)" || name == "Large TumbleFiend" {
        playerhealth := playerhealth - 5;
      }
      if name == "Small TumbleFiend(Clone)" {
        playerhealth := playerhealth - 3;
      }
    }

    /** Entering an explosion or a cactus spike, by the other object's tag. */
    method OnTriggerEnter2D(tag: string)
      modifies this`playerhealth
      ensures tag == "explosion" ==> playerhealth == old(playerhealth) - 10
      ensures tag == "Spike" ==> playerhealth == old(playerhealth) - 1
      ensures tag != "explosion" && tag != "Spike" ==> playerhealth == old(playerhealth)
    {
      if tag == "explosion" {
        playerhealth := playerhealth - 10;
      }
      if tag == "Spike" {
        playerhealth := playerhealth - 1;
      }
    }
  }

  /** Three weapon switches bring back the gun and its mirrored counts, with
      both attacks ready, and leave the weapon number in step with the gun:
      the same number as before when it already was. */
  method ThreeSwitchesRestore(sheriff: SheriffBehavior)
    requires sheriff.Valid()
    modifies sheriff`current, sheriff`chgAtkAvailable, sheriff`atkAvailable, sheriff`ammo,
             sheriff`maxAmmo, sheriff`weaponNumber, sheriff`weaponChanged
    ensures sheriff.Valid()
    ensures sheriff.current == old(sheriff.current) && sheriff.assets == old(sheriff.assets)
    ensures sheriff.NumberInSync()
    ensures old(sheriff.NumberInSync()) ==> sheriff.weaponNumber == old(sheriff.weaponNumber)
    ensures sheriff.ammo == old(sheriff.ammo) && sheriff.maxAmmo == old(sheriff.maxAmmo)
    ensures sheriff.atkAvailable && sheriff.chgAtkAvailable && sheriff.weaponChanged
    ensures sheriff.playerhealth == old(sheriff.playerhealth) && sheriff.position == old(sheriff.position)
    ensures sheriff.shots == old(sheriff.shots)
  {
    sheriff.SwitchWeapon();
    sheriff.SwitchWeapon();
    sheriff.SwitchWeapon();
    assert sheriff.current == Switches(old(sheriff.current), 3);
    SwitchPeriod(old(sheriff.current), 1);
  }
}
