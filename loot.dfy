/** The loot drop (LootTableAndDropBehavior.cs): a defeated enemy always
    leaves an energy cell where it fell, then each of `totalChances` draws
    from 1..19 may add one extra item, a little below and to the left. The
    random values are parameters; every instantiated item is recorded in a
    drop log. */
module Loot {
  import opened Screen
  import opened Options

  datatype Item = Cell | Health | Ammo

  datatype Drop = Drop(item: Item, at: Vec2)

  /** The random values one chance consumes: the draw, and the two offsets
      that are drawn only when an item drops. */
  datatype Chance = Chance(randomNum: int, dx: int, dy: int)

  /** The extra item a draw selects. The three bands are disjoint; the third
      spawns the ammo prefab (its comment says health). */
  function Band(randomNum: int): (extra: Option<Item>)
    ensures extra == Some(Cell) <==> 1 <= randomNum <= 2
    ensures extra == Some(Health) <==> 5 <= randomNum <= 6
    ensures extra == Some(Ammo) <==> 12 <= randomNum <= 13
  {
    if 1 <= randomNum <= 2 then Some(Cell)
    else if 5 <= randomNum <= 6 then Some(Health)
    else if 12 <= randomNum <= 13 then Some(Ammo)
    else None
  }

  /** One chance as the source runs it: three independent checks, each of
      which shifts the position and drops its item. Because the bands are
      disjoint, at most one fires, and the position moves only then. */
  function Roll(pos: Vec2, c: Chance): (r: (seq<Drop>, Vec2))
    ensures Band(c.randomNum) == None ==> r == ([], pos)
    ensures Band(c.randomNum).Some? ==>
              r.1 == pos.Plus(Vec2(c.dx as real, c.dy as real))
              && r.0 == [Drop(Band(c.randomNum).value, r.1)]
  {
    var n := c.randomNum;
    var offset := Vec2(c.dx as real, c.dy as real);
    var (d1, p1) := if n >= 1 && n <= 2 then ([Drop(Cell, pos.Plus(offset))], pos.Plus(offset)) else ([], pos);
    var (d2, p2) := if n >= 5 && n <= 6 then ([Drop(Health, p1.Plus(offset))], p1.Plus(offset)) else ([], p1);
    var (d3, p3) := if n >= 12 && n <= 13 then ([Drop(Ammo, p2.Plus(offset))], p2.Plus(offset)) else ([], p2);
    assert Band(n) == None ==> d1 + d2 + d3 == [];
    (d1 + d2 + d3, p3)
  }

  /** The extra items of a run of chances and the position after them. */
  function Rolls(pos: Vec2, chances: seq<Chance>): (r: (seq<Drop>, Vec2))
  {
    if chances == [] then ([], pos)
    else
      var before := Rolls(pos, chances[..|chances| - 1]);
      var last := Roll(before.1, chances[|chances| - 1]);
      (before.0 + last.0, last.1)
  }

  /** What Random.Range(-1, 1) can return: -1 or 0. */
  predicate SmallOffsets(c: Chance)
  {
    -1 <= c.dx <= 0 && -1 <= c.dy <= 0
  }

  /** Each chance adds at most one item, and the drop position only ever
      moves down and to the left, by at most one unit per chance on each
      axis; every extra item lies in that box. */
  lemma {:induction false} RollsBounds(pos: Vec2, chances: seq<Chance>)
    requires forall c :: c in chances ==> SmallOffsets(c)
    ensures |Rolls(pos, chances).0| <= |chances|
    ensures Near(pos, Rolls(pos, chances).1, |chances|)
    ensures forall d :: d in Rolls(pos, chances).0 ==> Near(pos, d.at, |chances|)
  {
    if chances != [] {
      var front := chances[..|chances| - 1];
      assert forall c :: c in front ==> c in chances;
      RollsBounds(pos, front);
      assert SmallOffsets(chances[|chances| - 1]);
    }
  }

  /** `q` lies at most `k` units below and to the left of `p`. */
  predicate Near(p: Vec2, q: Vec2, k: nat)
  {
    p.x - k as real <= q.x <= p.x && p.y - k as real <= q.y <= p.y
  }

  /** Extending the chances by one extends the drop log by that chance. */
  lemma RollsExtend(log: seq<Drop>, pos: Vec2, chances: seq<Chance>, i: nat)
    requires i < |chances|
    ensures Rolls(pos, chances[..i + 1]).1 == Roll(Rolls(pos, chances[..i]).1, chances[i]).1
    ensures log + Rolls(pos, chances[..i]).0 + Roll(Rolls(pos, chances[..i]).1, chances[i]).0
            == log + Rolls(pos, chances[..i + 1]).0
  {
    assert chances[..i + 1][..i] == chances[..i];
  }

  class LootTableAndDropBehavior {
    var randomNum: int
    const totalChances: int := 1
    const totalPool: int := 20
    /** Every item instantiated so far, oldest first. */
    ghost var dropped: seq<Drop>

    constructor ()
      ensures dropped == []
    {
      dropped := [];
    }

    /** Drop the base cell at `pos`, then run the chances. */
    method DropLoot(pos: Vec2, chances: seq<Chance>)
      requires |chances| == totalChances
      requires forall c :: c in chances ==> 1 <= c.randomNum < totalPool && SmallOffsets(c)
      modifies this`randomNum, this`dropped
      ensures dropped == old(dropped) + [Drop(Cell, pos)] + Rolls(pos, chances).0
      ensures 1 <= |dropped| - |old(dropped)| <= 1 + totalChances
      ensures forall k :: |old(dropped)| < k < |dropped| ==> Near(pos, dropped[k].at, totalChances)
    {
      dropped := dropped + [Drop(Cell, pos)];
      ghost var log := dropped;
      var p := pos;
      var i := 0;
      while i < totalChances
        invariant 0 <= i <= |chances|
        invariant p == Rolls(pos, chances[..i]).1
        invariant dropped == log + Rolls(pos, chances[..i]).0
      {
        randomNum := chances[i].randomNum;
        var offset := Vec2(chances[i].dx as real, chances[i].dy as real);
        ghost var before := dropped;
        ghost var from := p;
        if randomNum >= 1 && randomNum <= 2 {
          p := p.Plus(offset);
          dropped := dropped + [Drop(Cell, p)];
        }
        if randomNum >= 5 && randomNum <= 6 {
          p := p.Plus(offset);
          dropped := dropped + [Drop(Health, p)];
        }
        if randomNum >= 12 && randomNum <= 13 {
          p := p.Plus(offset);
          dropped := dropped + [Drop(Ammo, p)];
        }
        assert (dropped, p) == (before + Roll(from, chances[i]).0, Roll(from, chances[i]).1);
        RollsExtend(log, pos, chances, i);
        i := i + 1;
      }
      assert chances[..i] == chances;
      RollsBounds(pos, chances);
      forall k | |old(dropped)| < k < |dropped|
        ensures Near(pos, dropped[k].at, totalChances)
      {
        assert dropped[k] == Rolls(pos, chances).0[k - |old(dropped)| - 1];
      }
    }
  }
}
