/** The wave spawner (GameController.cs): an enemy counter, a wave index
    from 1 to 4, and SpawnEnemies, which turns each random draw into an
    enemy type and instantiates every enemy kind whose spawn multiplier
    equals that type. The random draws are parameters; every instantiated
    enemy is recorded in a spawn log. */
module Waves {

  datatype Enemy = Kamicactus | Stenocerberus | LargeTumble | SmallTumble

  /** A spawn position: both coordinates come from the integer overload of
      Random.Range. */
  datatype Pos = Pos(x: int, y: int)

  /** Random.Range(-33, 40) and Random.Range(-32, 14) exclude their upper
      bounds. */
  predicate InArena(p: Pos)
  {
    -33 <= p.x <= 39 && -32 <= p.y <= 13
  }

  /** The positions drawn for each kind that spawns in one iteration. */
  datatype Spots = Spots(kamicactus: Pos, stenocerberus: Pos, largeTumble: Pos, smallTumble: Pos)

  function SpotOf(spots: Spots, e: Enemy): Pos
  {
    match e
    case Kamicactus => spots.kamicactus
    case Stenocerberus => spots.stenocerberus
    case LargeTumble => spots.largeTumble
    case SmallTumble => spots.smallTumble
  }

  /** The random values one loop iteration of SpawnEnemies consumes. */
  datatype Draw = Draw(chance: int, spots: Spots)

  /** What the generator can return: Random.Range(1, 10) lies in 1..9. */
  predicate ValidDraw(d: Draw)
  {
    && 1 <= d.chance <= 9
    && InArena(d.spots.kamicactus) && InArena(d.spots.stenocerberus)
    && InArena(d.spots.largeTumble) && InArena(d.spots.smallTumble)
  }

  datatype Spawn = Spawn(kind: Enemy, at: Pos)

  /** The four spawn multipliers, each configured in 1..4. */
  datatype Multipliers = Multipliers(kamicactus: int, stenocerberus: int, largeTumble: int, smallTumble: int)

  function MultiplierOf(m: Multipliers, e: Enemy): int
  {
    match e
    case Kamicactus => m.kamicactus
    case Stenocerberus => m.stenocerberus
    case LargeTumble => m.largeTumble
    case SmallTumble => m.smallTumble
  }

  /** The configured number of enemies of each wave. */
  datatype WaveCounts = WaveCounts(wave1: int, wave2: int, wave3: int, wave4: int)

  /** The enemy type after one draw, `previous` being the type left by the
      iteration before (the variable outlives the loop body). A draw the
      generator can return picks type 4, 3 or 2; the branch for type 1
      needs the draw 10, which Random.Range(1, 10) never returns. */
  function EnemyType(chance: int, previous: int): (t: int)
    ensures 1 <= chance <= 9 ==> 2 <= t <= 4
    ensures 1 <= chance <= 9 ==> (t == 4 <==> chance <= 4)
    ensures 1 <= chance <= 9 ==> (t == 3 <==> 5 <= chance <= 7)
    ensures 1 <= chance <= 9 ==> (t == 2 <==> 8 <= chance)
    ensures t == 1 <==> chance == 10 || (chance > 10 && previous == 1)
  {
    var t4 := if chance <= 4 then 4 else previous;
    var t3 := if chance > 4 && chance <= 7 then 3 else t4;
    var t2 := if chance == 8 || chance == 9 then 2 else t3;
    if chance == 10 then 1 else t2
  }

  /** The enemies one iteration instantiates for enemy type `t`, in the
      order of the source's four checks. */
  function Matches(t: int, m: Multipliers, spots: Spots): (r: seq<Spawn>)
    ensures |r| <= 4
    ensures forall e :: Spawn(e, SpotOf(spots, e)) in r <==> MultiplierOf(m, e) == t
    ensures forall s :: s in r ==> s.at == SpotOf(spots, s.kind) && MultiplierOf(m, s.kind) == t
  {
    (if m.kamicactus == t then [Spawn(Kamicactus, spots.kamicactus)] else [])
    + (if m.stenocerberus == t then [Spawn(Stenocerberus, spots.stenocerberus)] else [])
    + (if m.largeTumble == t then [Spawn(LargeTumble, spots.largeTumble)] else [])
    + (if m.smallTumble == t then [Spawn(SmallTumble, spots.smallTumble)] else [])
  }

  /** Each matching kind is instantiated once: no kind appears twice in one
      iteration's spawns. */
  lemma MatchesOnce(t: int, m: Multipliers, spots: Spots)
    ensures var r := Matches(t, m, spots);
            forall i, j :: 0 <= i < j < |r| ==> r[i].kind != r[j].kind
  {
  }

  /** The enemy type after the iterations of `draws`, starting from 0. */
  function TypeAfter(draws: seq<Draw>): int
  {
    if draws == [] then 0
    else EnemyType(draws[|draws| - 1].chance, TypeAfter(draws[..|draws| - 1]))
  }

  /** Everything SpawnEnemies instantiates for `draws`, in order. */
  function Batch(draws: seq<Draw>, m: Multipliers): seq<Spawn>
  {
    if draws == [] then []
    else Batch(draws[..|draws| - 1], m) + Matches(TypeAfter(draws), m, draws[|draws| - 1].spots)
  }

  /** With draws the generator can return: at most four enemies per
      iteration, every one inside the arena, and no kind whose multiplier is
      1 ever appears (type 1 is never chosen). */
  lemma {:induction false} BatchShape(draws: seq<Draw>, m: Multipliers)
    requires forall d :: d in draws ==> ValidDraw(d)
    ensures |Batch(draws, m)| <= 4 * |draws|
    ensures forall s :: s in Batch(draws, m) ==> InArena(s.at)
    ensures forall s :: s in Batch(draws, m) ==> 2 <= MultiplierOf(m, s.kind) <= 4
  {
    if draws != [] {
      var front := draws[..|draws| - 1];
      var last := draws[|draws| - 1];
      assert forall d :: d in front ==> d in draws;
      BatchShape(front, m);
      assert ValidDraw(last);
      var t := TypeAfter(draws);
      assert 2 <= t <= 4;
      forall s | s in Matches(t, m, last.spots)
        ensures InArena(s.at) && 2 <= MultiplierOf(m, s.kind) <= 4
      {
        assert s.at == SpotOf(last.spots, s.kind);
      }
    }
  }

  /** Extending the draws by one iteration extends the enemy type and the
      spawn log by that iteration. */
  lemma BatchExtend(log: seq<Spawn>, draws: seq<Draw>, i: nat, m: Multipliers)
    requires i < |draws|
    ensures TypeAfter(draws[..i + 1]) == EnemyType(draws[i].chance, TypeAfter(draws[..i]))
    ensures log + Batch(draws[..i], m) + Matches(TypeAfter(draws[..i + 1]), m, draws[i].spots)
            == log + Batch(draws[..i + 1], m)
  {
    assert draws[..i + 1][..i] == draws[..i];
  }

  function Iterations(n: int): nat
  {
    if n > 0 then n else 0
  }

  /** How many enemies Update spawns on reaching wave `w`: its three checks
      cover waves 2, 3 and 4. */
  function Reached(counts: WaveCounts, w: int): int
  {
    if w == 2 then counts.wave2
    else if w == 3 then counts.wave3
    else if w == 4 then counts.wave4
    else 0
  }

  /** The counter and the wave index. */
  datatype WaveState = WaveState(wave: int, enemyCounter: int)

  /** One Update: with no enemy left and the last wave not reached, the wave
      advances by one and its enemies are spawned at once (WaveBreak delays
      nothing). Otherwise nothing changes. */
  function Advance(p: WaveState, counts: WaveCounts): (r: WaveState)
    ensures p.enemyCounter != 0 || p.wave == 4 ==> r == p
    ensures p.enemyCounter == 0 && p.wave != 4 ==>
              r.wave == p.wave + 1 && r.enemyCounter == Iterations(Reached(counts, p.wave + 1))
  {
    if p.enemyCounter == 0 && p.wave != 4 then
      WaveState(p.wave + 1, p.enemyCounter + Iterations(Reached(counts, p.wave + 1)))
    else p
  }

  /** The calls that change the counter or the wave. */
  datatype Tick = Updated | EnemyAdded | EnemyRemoved

  function ApplyTick(p: WaveState, t: Tick, counts: WaveCounts): WaveState
  {
    match t
    case Updated => Advance(p, counts)
    case EnemyAdded => p.(enemyCounter := p.enemyCounter + 1)
    case EnemyRemoved => p.(enemyCounter := p.enemyCounter - 1)
  }

  function Run(p: WaveState, ticks: seq<Tick>, counts: WaveCounts): WaveState
    decreases |ticks|
  {
    if ticks == [] then p else Run(ApplyTick(p, ticks[0], counts), ticks[1..], counts)
  }

  /** From any wave in 1..4 the wave stays in 1..4, never decreases, and
      rises by at most one per call. */
  lemma {:induction false} WaveBounded(p: WaveState, ticks: seq<Tick>, counts: WaveCounts)
    requires 1 <= p.wave <= 4
    ensures p.wave <= Run(p, ticks, counts).wave <= 4
    ensures Run(p, ticks, counts).wave - p.wave <= |ticks|
    decreases |ticks|
  {
    if ticks != [] {
      WaveBounded(ApplyTick(p, ticks[0], counts), ticks[1..], counts);
    }
  }

  /** A negative counter stalls the game: no number of Updates changes
      anything, because the counter only ever equals 0 again through
      AddEnemy. */
  lemma {:induction false} NegativeCounterStalls(p: WaveState, ticks: seq<Tick>, counts: WaveCounts)
    requires p.enemyCounter < 0
    requires forall t :: t in ticks ==> t == Updated
    ensures Run(p, ticks, counts) == p
    decreases |ticks|
  {
    if ticks != [] {
      assert ticks[0] in ticks;
      assert forall t :: t in ticks[1..] ==> t in ticks;
      NegativeCounterStalls(p, ticks[1..], counts);
    }
  }

  class GameController {
    var enemyCounter: int
    var wave: int
    const counts: WaveCounts
    const multipliers: Multipliers
    /** Every enemy instantiated so far, oldest first. */
    ghost var spawned: seq<Spawn>

    function State(): WaveState
      reads this
    {
      WaveState(wave, enemyCounter)
    }

    ghost predicate Valid()
      reads this
    {
      1 <= wave <= 4
    }

    /** The serialized fields; `enemyCounter` is whatever the scene saved. */
    constructor (counts: WaveCounts, multipliers: Multipliers, enemyCounter: int)
      ensures Valid()
      ensures this.counts == counts && this.multipliers == multipliers
      ensures State() == WaveState(1, enemyCounter) && spawned == []
    {
      this.counts := counts;
      this.multipliers := multipliers;
      this.enemyCounter := enemyCounter;
      wave := 1;
      spawned := [];
    }

    /** Spawn the first wave. */
    method Start(draws: seq<Draw>)
      requires |draws| == Iterations(counts.wave1)
      requires forall d :: d in draws ==> ValidDraw(d)
      modifies this`enemyCounter, this`spawned
      ensures enemyCounter == old(enemyCounter) + Iterations(counts.wave1)
      ensures spawned == old(spawned) + Batch(draws, multipliers)
    {
      SpawnEnemies(counts.wave1, draws);
    }

    /** The per-frame wave check. */
    method Update(draws: seq<Draw>)
      requires Valid()
      requires |draws| == if enemyCounter == 0 && wave != 4 then Iterations(Reached(counts, wave + 1)) else 0
      requires forall d :: d in draws ==> ValidDraw(d)
      modifies this`wave, this`enemyCounter, this`spawned
      ensures Valid()
      ensures State() == Advance(old(State()), counts)
      ensures spawned == old(spawned) + Batch(draws, multipliers)
    {
      if enemyCounter == 0 && wave != 4 {
        wave := wave + 1;
        if wave == 2 {
          SpawnEnemies(counts.wave2, draws);
        }
        if wave == 3 {
          SpawnEnemies(counts.wave3, draws);
        }
        if wave == 4 {
          SpawnEnemies(counts.wave4, draws);
        }
      } else {
        assert draws == [];
      }
    }

    method AddEnemy()
      modifies this`enemyCounter
      ensures State() == ApplyTick(old(State()), EnemyAdded, counts)
    {
      enemyCounter := enemyCounter + 1;
    }

    /** Decrement without any clamp at zero. */
    method RemoveEnemy()
      modifies this`enemyCounter
      ensures State() == ApplyTick(old(State()), EnemyRemoved, counts)
    {
      enemyCounter := enemyCounter - 1;
    }

    /** The four multiplier checks of one SpawnEnemies iteration: every kind
        whose multiplier equals `enemyType` is instantiated at its spot. */
    method InstantiateMatching(enemyType: int, spots: Spots)
      modifies this`spawned
      ensures spawned == old(spawned) + Matches(enemyType, multipliers, spots)
    {
      if enemyType == multipliers.kamicactus {
        spawned := spawned + [Spawn(Kamicactus, spots.kamicactus)];
      }
      if enemyType == multipliers.stenocerberus {
        spawned := spawned + [Spawn(Stenocerberus, spots.stenocerberus)];
      }
      if enemyType == multipliers.largeTumble {
        spawned := spawned + [Spawn(LargeTumble, spots.largeTumble)];
      }
      if enemyType == multipliers.smallTumble {
        spawned := spawned + [Spawn(SmallTumble, spots.smallTumble)];
      }
    }

    /** Run `spawnMe` iterations: pick the enemy type from the draw,
        instantiate every kind whose multiplier equals it, count one enemy.
        The counter rises by exactly the number of iterations, however many
        kinds matched. */
    method SpawnEnemies(spawnMe: int, draws: seq<Draw>)
      requires |draws| == Iterations(spawnMe)
      requires forall d :: d in draws ==> ValidDraw(d)
      modifies this`enemyCounter, this`spawned
      ensures enemyCounter == old(enemyCounter) + Iterations(spawnMe)
      ensures spawned == old(spawned) + Batch(draws, multipliers)
      ensures forall k :: |old(spawned)| <= k < |spawned| ==>
                InArena(spawned[k].at) && 2 <= MultiplierOf(multipliers, spawned[k].kind) <= 4
    {
      var enemyType := 0;
      var i := 0;
      while i < spawnMe
        invariant 0 <= i <= |draws|
        invariant enemyType == TypeAfter(draws[..i])
        invariant spawned == old(spawned) + Batch(draws[..i], multipliers)
        invariant enemyCounter == old(enemyCounter) + i
      {
        var enemyChance := draws[i].chance;
        var spots := draws[i].spots;
        if enemyChance <= 4 {
          enemyType := 4;
        }
        if enemyChance > 4 && enemyChance <= 7 {
          enemyType := 3;
        }
        if enemyChance == 8 || enemyChance == 9 {
          enemyType := 2;
        }
        if enemyChance == 10 {
          enemyType := 1;
        }
        BatchExtend(old(spawned), draws, i, multipliers);
        InstantiateMatching(enemyType, spots);
        AddEnemy();
        i := i + 1;
      }
      assert draws[..i] == draws;
      BatchShape(draws, multipliers);
      forall k | |old(spawned)| <= k < |spawned|
        ensures InArena(spawned[k].at) && 2 <= MultiplierOf(multipliers, spawned[k].kind) <= 4
      {
        assert spawned[k] == Batch(draws, multipliers)[k - |old(spawned)|];
      }
    }
  }
}
