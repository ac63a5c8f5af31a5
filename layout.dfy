/** The world builder's geometry: what each `create*` call appends to the
    registry, as a list of placements (type tag, size and body position, in
    metres), in append order. */
module Layout {
  import opened Registry

  datatype Placement = Placement(kind: EntityType, width: real, height: real, at: Vec)

  const GroundWidth: real := 20.0
  const GroundHeight: real := 10.0
  const StoneBlockWidth: real := 4.0
  const StoneBlockHeight: real := 2.0
  const CharacterWidth: real := 2.0
  const CharacterHeight: real := 4.0
  const CoinWidth: real := 1.0
  const CoinHeight: real := 1.0

  /** Number of iterations in one streaming batch. */
  const BatchIterations: nat := 10

  /** C++'s float-to-int conversion: truncation toward zero. */
  function Trunc(r: real): (n: int)
    ensures 0.0 <= r ==> n as real <= r < n as real + 1.0
    ensures r < 0.0 ==> n as real - 1.0 < r <= n as real
  {
    if r >= 0.0 then r.Floor else -((-r).Floor)
  }

  /** Adding a whole number to a non-negative value commutes with truncation. */
  lemma TruncShift(r: real, n: nat)
    requires 0.0 <= r
    ensures Trunc(r + n as real) == Trunc(r) + n
  {
  }

  function Block(width: real, height: real, x: real, y: real): Placement
  {
    Placement(StoneBlock, width, height, Vec(x, y))
  }

  function CoinAt(x: real, y: real): Placement
  {
    Placement(Coin, CoinWidth, CoinHeight, Vec(x, y))
  }

  /** Number of placements of the given kind. */
  function CountKind(ps: seq<Placement>, k: EntityType): nat
  {
    if ps == [] then 0
    else CountKind(ps[..|ps| - 1], k) + (if ps[|ps| - 1].kind == k then 1 else 0)
  }

  lemma {:induction false} CountKindAppend(ps: seq<Placement>, qs: seq<Placement>, k: EntityType)
    ensures CountKind(ps + qs, k) == CountKind(ps, k) + CountKind(qs, k)
  {
    if qs == [] {
      assert ps + qs == ps;
    } else {
      var q := qs[..|qs| - 1];
      assert (ps + qs)[..|ps + qs| - 1] == ps + q;
      CountKindAppend(ps, q, k);
    }
  }

  /** No placement is the character. */
  predicate Static(ps: seq<Placement>)
  {
    forall i :: 0 <= i < |ps| ==> ps[i].kind != Character
  }

  // ---------------------------------------------------------------------------
  // createObstacles

  /** The height of the coin row beside a bottom obstacle, relative to the
      obstacle, for the four heights that carry one. */
  function CoinRowOffset(y: int): Option<int>
  {
    if y == 23 then Some(-2)
    else if y == 1 then Some(2)
    else if y == 14 then Some(2)
    else if y == 11 then Some(-2)
    else None
  }

  function CoinRow(x: int, y: int, isTop: bool): seq<Placement>
  {
    if !isTop && CoinRowOffset(y).Some? then
      seq(5, i requires 0 <= i < 5 => CoinAt((x + 2 * i) as real, (y + CoinRowOffset(y).value) as real))
    else []
  }

  /** createObstacles(x, y, isTop): a 12 x 2 platform, a 2 x 2 capstone, then
      possibly a row of coins. */
  function Obstacles(x: int, y: int, isTop: bool): seq<Placement>
  {
    [Block(12.0, 2.0, (x + 5) as real, y as real),
     Block(2.0, 2.0, (x + 10) as real, y as real + (if isTop then 2.0 else -2.0))]
    + CoinRow(x, y, isTop)
  }

  /** Exactly two stone blocks come first: the platform at (x + 5, y) and the
      capstone at (x + 10, y + 2) on top or (x + 10, y - 2) otherwise. */
  lemma ObstaclesBlocks(x: int, y: int, isTop: bool)
    ensures |Obstacles(x, y, isTop)| >= 2
    ensures Obstacles(x, y, isTop)[0] == Placement(StoneBlock, 12.0, 2.0, Vec((x + 5) as real, y as real))
    ensures Obstacles(x, y, isTop)[1] ==
      Placement(StoneBlock, 2.0, 2.0, Vec((x + 10) as real, (if isTop then y + 2 else y - 2) as real))
    ensures forall i :: 2 <= i < |Obstacles(x, y, isTop)| ==> Obstacles(x, y, isTop)[i].kind == Coin
    ensures Static(Obstacles(x, y, isTop))
  {
  }

  /** Coins appear only beside a bottom obstacle at height 23, 1, 14 or 11:
      five 1 x 1 coins at x, x + 2, ..., x + 8, two below the obstacle at 23
      and 11 and two above it at 1 and 14. */
  lemma ObstaclesCoins(x: int, y: int, isTop: bool)
    ensures var ps := Obstacles(x, y, isTop);
      (|ps| == 7 <==> !isTop && (y == 23 || y == 1 || y == 14 || y == 11))
      && (|ps| == 2 || |ps| == 7)
      && (|ps| == 7 ==> forall i :: 0 <= i < 5 ==>
            ps[2 + i] == Placement(Coin, 1.0, 1.0,
              Vec((x + 2 * i) as real, (if y == 23 || y == 11 then y - 2 else y + 2) as real)))
  {
  }

  lemma {:induction false} CoinRowCount(x: int, y: int, isTop: bool)
    ensures CountKind(Obstacles(x, y, isTop), Coin) == |CoinRow(x, y, isTop)|
    ensures CountKind(Obstacles(x, y, isTop), StoneBlock) == 2
    ensures CountKind(Obstacles(x, y, isTop), Ground) == 0
  {
    var blocks := Obstacles(x, y, isTop)[..2];
    var row := CoinRow(x, y, isTop);
    assert Obstacles(x, y, isTop) == blocks + row;
    CountKindAppend(blocks, row, Coin);
    CountKindAppend(blocks, row, StoneBlock);
    CountKindAppend(blocks, row, Ground);
    UniformCount(blocks, StoneBlock);
    UniformCount(row, Coin);
  }

  /** A list of one kind counts its length for that kind and nothing for the others. */
  lemma {:induction false} UniformCount(ps: seq<Placement>, k: EntityType)
    requires forall i :: 0 <= i < |ps| ==> ps[i].kind == k
    ensures forall k' :: CountKind(ps, k') == if k' == k then |ps| else 0
  {
    if ps != [] {
      UniformCount(ps[..|ps| - 1], k);
    }
  }

  // ---------------------------------------------------------------------------
  // createBlockGroup, createGround, createCharacter

  /** createBlockGroup(x, y): one 10 x 2 block ten metres to the right of x. */
  function BlockGroup(x: int, y: int): seq<Placement>
  {
    [Block(10.0, 2.0, (x + 10) as real, y as real)]
  }

  /** Height of step i of the staircase: three steps up by 2 from 6, then down. */
  function StairY(i: nat): real
  {
    if i <= 2 then 6.0 + 2.0 * i as real else 14.0 - 2.0 * i as real
  }

  /** The staircase of a bottom ground strip centred at px. */
  function Stairs(px: real): seq<Placement>
  {
    seq(5, i requires 0 <= i < 5 => Block(StoneBlockWidth, StoneBlockHeight, px - 8.0 + 4.0 * i as real, StairY(i)))
  }

  /** createGround(w, h, px, py, isTop): the staircase (bottom strips only),
      then the ground strip itself. */
  function GroundStrip(width: real, height: real, px: real, py: real, isTop: bool): seq<Placement>
  {
    (if isTop then [] else Stairs(px)) + [Placement(Ground, width, height, Vec(px, py))]
  }

  /** A top strip appends only the ground; a bottom strip first appends five
      4 x 2 blocks at x = px - 8 + 4i with heights 6, 8, 10, 8, 6 (whatever py
      is), and the ground last. */
  lemma GroundStripGeometry(width: real, height: real, px: real, py: real, isTop: bool)
    ensures var ps := GroundStrip(width, height, px, py, isTop);
      |ps| == (if isTop then 1 else 6)
      && ps[|ps| - 1] == Placement(Ground, width, height, Vec(px, py))
      && (!isTop ==>
            ps[0].at == Vec(px - 8.0, 6.0) && ps[1].at == Vec(px - 4.0, 8.0)
            && ps[2].at == Vec(px, 10.0) && ps[3].at == Vec(px + 4.0, 8.0)
            && ps[4].at == Vec(px + 8.0, 6.0)
            && forall i :: 0 <= i < 5 ==> ps[i].kind == StoneBlock && ps[i].width == 4.0 && ps[i].height == 2.0)
      && Static(ps)
  {
  }

  function CharacterAt(x: real, y: real): Placement
  {
    Placement(Character, CharacterWidth, CharacterHeight, Vec(x, y))
  }

  // ---------------------------------------------------------------------------
  // The Game() constructor

  /** Round i of the constructor's loop: the upper block group (at 18 - 3i,
      or at 6.978 + 3i in round 2), then the lower one at 7 + 3i in rounds 0
      and 1, with every float argument truncated to `int`. */
  function FieldRound(i: nat): seq<Placement>
  {
    (if i != 2 then BlockGroup(Trunc(10.0 + 10.0 * i as real), Trunc(18.0 - 3.0 * i as real))
     else BlockGroup(Trunc(10.0 + 10.0 * i as real), Trunc(6.978 + 3.0 * i as real)))
    + (if i < 2 then BlockGroup(Trunc(10.0 + 10.0 * i as real), Trunc(7.0 + 3.0 * i as real)) else [])
  }

  /** The first n rounds of the constructor's loop. */
  function FieldRounds(n: nat): seq<Placement>
  {
    if n == 0 then [] else FieldRounds(n - 1) + FieldRound(n - 1)
  }

  /** The blocks of the constructor's loop, in creation order. */
  function FieldBlocks(): seq<Placement>
  {
    FieldRounds(3)
  }

  /** The loop's five groups sit at (10, 18), (10, 7), (20, 15), (20, 10) and
      (30, 12): the float 6.978 + 6 is truncated to 12. */
  lemma FieldBlocksGeometry()
    ensures FieldBlocks() == BlockGroup(10, 18) + BlockGroup(10, 7) + BlockGroup(20, 15) + BlockGroup(20, 10) + BlockGroup(30, 12)
  {
    assert Trunc(6.978 + 6.0) == 12;
  }

  /** The two ground strips of Game(): the top one, then the bottom one. */
  function CorridorLayout(): seq<Placement>
  {
    GroundStrip(GroundWidth, GroundHeight, 0.0, 0.0, true) + GroundStrip(GroundWidth, GroundHeight, 0.0, 25.0, false)
  }

  /** The rest of Game(): the character, the lower slab, the loop's block
      groups and the upper slab. */
  function PlayfieldLayout(): seq<Placement>
  {
    [CharacterAt(-9.0, 10.0)] + ([Block(30.0, 2.0, 25.0, 25.0)] + FieldBlocks() + [Block(30.0, 2.0, 25.0, 0.0)])
  }

  /** The whole initial world, in creation order. */
  function InitialLayout(): seq<Placement>
  {
    CorridorLayout() + PlayfieldLayout()
  }

  /** The initial world has 15 records: two ground strips, the character at
      (-9, 10) as the eighth record and the only one, and twelve blocks. */
  lemma InitialLayoutFacts()
    ensures |InitialLayout()| == 15
    ensures InitialLayout()[7] == Placement(Character, 2.0, 4.0, Vec(-9.0, 10.0))
    ensures forall i :: 0 <= i < 15 && i != 7 ==> InitialLayout()[i].kind != Character
    ensures CountKind(InitialLayout(), Ground) == 2
    ensures CountKind(InitialLayout(), StoneBlock) == 12
    ensures CountKind(InitialLayout(), Coin) == 0
  {
    var top := GroundStrip(GroundWidth, GroundHeight, 0.0, 0.0, true);
    var st := Stairs(0.0);
    var g := [Placement(Ground, GroundWidth, GroundHeight, Vec(0.0, 25.0))];
    var ch := [CharacterAt(-9.0, 10.0)];
    var blocks := [Block(30.0, 2.0, 25.0, 25.0)] + FieldBlocks() + [Block(30.0, 2.0, 25.0, 0.0)];
    FieldBlocksGeometry();
    assert CorridorLayout() == top + (st + g);
    assert PlayfieldLayout() == ch + blocks;
    UniformCount(top, Ground);
    UniformCount(st, StoneBlock);
    UniformCount(g, Ground);
    UniformCount(ch, Character);
    UniformCount(blocks, StoneBlock);
    forall k ensures CountKind(InitialLayout(), k) ==
      CountKind(top, k) + CountKind(st, k) + CountKind(g, k) + CountKind(ch, k) + CountKind(blocks, k)
    {
      CountKindAppend(st, g, k);
      CountKindAppend(top, st + g, k);
      CountKindAppend(ch, blocks, k);
      CountKindAppend(CorridorLayout(), PlayfieldLayout(), k);
    }
  }


  // ---------------------------------------------------------------------------
  // The streaming batch and the ending, from main

  /** The three `dist(rd)` draws of one iteration, in the order they are made:
      the middle pair's flag, the flag of the obstacle at 23, that of the one at 1. */
  datatype Draw = Draw(mid: bool, band23: bool, band1: bool)

  /** The value largestPosX holds during iteration i of a batch started at `start`. */
  function Anchor(start: real, i: nat): real
  {
    (if start >= 90.0 then start - 7.0 else start) + 5.0 * (i + 1) as real
  }

  /** The flags of the obstacles at 14 and 11: the middle draw and its
      opposite, except that the last iteration fixes them to a bottom obstacle
      at 14 and a top one at 11. */
  function MidFlags(i: nat, mid: bool): (bool, bool)
  {
    if i == 9 then (false, true) else (mid, !mid)
  }

  /** Iteration i of a batch: obstacles at 23, 14, 11 and 1, in that order. */
  function Iteration(start: real, i: nat, d: Draw): seq<Placement>
  {
    var x := Anchor(start, i) + 12.0 * i as real;
    Obstacles(Trunc(x), 23, d.band23)
    + Obstacles(Trunc(x + 8.0), 14, MidFlags(i, d.mid).0)
    + Obstacles(Trunc(x + 8.0), 11, MidFlags(i, d.mid).1)
    + Obstacles(Trunc(x), 1, d.band1)
  }

  /** Iteration i as its four obstacle lists, from its column x. */
  lemma IterationSplit(start: real, i: nat, d: Draw, x: real)
    requires x == Anchor(start, i) + 12.0 * i as real
    ensures Iteration(start, i, d) ==
      (Obstacles(Trunc(x), 23, d.band23) + Obstacles(Trunc(x + 8.0), 14, MidFlags(i, d.mid).0))
      + (Obstacles(Trunc(x + 8.0), 11, MidFlags(i, d.mid).1) + Obstacles(Trunc(x), 1, d.band1))
  {
  }

  /** The first |draws| iterations of a batch. */
  function Batch(start: real, draws: seq<Draw>): seq<Placement>
  {
    if draws == [] then []
    else Batch(start, draws[..|draws| - 1]) + Iteration(start, |draws| - 1, draws[|draws| - 1])
  }

  /** The closing scene: two block groups and two ground strips (the bottom one
      with its staircase) placed from the rightmost x. */
  function Ending(largestPosX: real): seq<Placement>
  {
    BlockGroup(Trunc(largestPosX - 10.0), 23)
    + BlockGroup(Trunc(largestPosX - 10.0), 1)
    + GroundStrip(GroundWidth, GroundHeight, largestPosX + 20.0, 0.0, true)
    + GroundStrip(GroundWidth, GroundHeight, largestPosX + 20.0, 25.0, false)
  }

  /** The ending as its blocks, then its ground strips. */
  lemma EndingSplit(largestPosX: real)
    ensures Ending(largestPosX) ==
      (BlockGroup(Trunc(largestPosX - 10.0), 23) + BlockGroup(Trunc(largestPosX - 10.0), 1))
      + (GroundStrip(GroundWidth, GroundHeight, largestPosX + 20.0, 0.0, true)
         + GroundStrip(GroundWidth, GroundHeight, largestPosX + 20.0, 25.0, false))
  {
  }

  /** Exactly one of the two middle obstacles is a bottom one, so the middle
      band always carries exactly one row of five coins. */
  lemma MidPairOneCoinRow(x: int, i: nat, mid: bool)
    ensures MidFlags(i, mid).0 != MidFlags(i, mid).1
    ensures |CoinRow(x, 14, MidFlags(i, mid).0)| + |CoinRow(x, 11, MidFlags(i, mid).1)| == 5
  {
  }

  /** Number of `false` flags among the draws for the obstacles at 23 and 1. */
  function BottomDraws(draws: seq<Draw>): nat
  {
    if draws == [] then 0
    else
      var d := draws[|draws| - 1];
      BottomDraws(draws[..|draws| - 1]) + (if d.band23 then 0 else 1) + (if d.band1 then 0 else 1)
  }

  /** Iteration i holds eight stone blocks, no ground and no character, and
      five coins for the middle band plus five for each bottom obstacle at 23
      or 1. */
  lemma IterationCounts(start: real, i: nat, d: Draw)
    ensures CountKind(Iteration(start, i, d), Coin) == 5 * (1 + (if d.band23 then 0 else 1) + (if d.band1 then 0 else 1))
    ensures CountKind(Iteration(start, i, d), StoneBlock) == 8
    ensures CountKind(Iteration(start, i, d), Ground) == 0
    ensures Static(Iteration(start, i, d))
  {
    IterationCoins(start, i, d);
    var x := Anchor(start, i) + 12.0 * i as real;
    var (m0, m1) := MidFlags(i, d.mid);
    var a := Obstacles(Trunc(x), 23, d.band23);
    var b := Obstacles(Trunc(x + 8.0), 14, m0);
    var c := Obstacles(Trunc(x + 8.0), 11, m1);
    var e := Obstacles(Trunc(x), 1, d.band1);
    IterationSplit(start, i, d, x);
    CountFour(a, b, c, e, StoneBlock);
    CountFour(a, b, c, e, Ground);
    CoinRowCount(Trunc(x), 23, d.band23);
    CoinRowCount(Trunc(x + 8.0), 14, m0);
    CoinRowCount(Trunc(x + 8.0), 11, m1);
    CoinRowCount(Trunc(x), 1, d.band1);
    ObstaclesBlocks(Trunc(x), 23, d.band23);
    ObstaclesBlocks(Trunc(x + 8.0), 14, m0);
    ObstaclesBlocks(Trunc(x + 8.0), 11, m1);
    ObstaclesBlocks(Trunc(x), 1, d.band1);
    StaticAppend(a, b);
    StaticAppend(c, e);
    StaticAppend(a + b, c + e);
  }

  lemma IterationCoins(start: real, i: nat, d: Draw)
    ensures CountKind(Iteration(start, i, d), Coin) == 5 * (1 + (if d.band23 then 0 else 1) + (if d.band1 then 0 else 1))
  {
    var x := Anchor(start, i) + 12.0 * i as real;
    var (m0, m1) := MidFlags(i, d.mid);
    var a := Obstacles(Trunc(x), 23, d.band23);
    var b := Obstacles(Trunc(x + 8.0), 14, m0);
    var c := Obstacles(Trunc(x + 8.0), 11, m1);
    var e := Obstacles(Trunc(x), 1, d.band1);
    IterationSplit(start, i, d, x);
    CountFour(a, b, c, e, Coin);
    CoinRowCount(Trunc(x), 23, d.band23);
    CoinRowCount(Trunc(x + 8.0), 14, m0);
    CoinRowCount(Trunc(x + 8.0), 11, m1);
    CoinRowCount(Trunc(x), 1, d.band1);
    MidPairOneCoinRow(Trunc(x + 8.0), i, d.mid);
    assert |CoinRow(Trunc(x), 23, d.band23)| == if d.band23 then 0 else 5;
    assert |CoinRow(Trunc(x), 1, d.band1)| == if d.band1 then 0 else 5;
  }

  lemma CountFour(a: seq<Placement>, b: seq<Placement>, c: seq<Placement>, e: seq<Placement>, k: EntityType)
    ensures CountKind((a + b) + (c + e), k) == CountKind(a, k) + CountKind(b, k) + CountKind(c, k) + CountKind(e, k)
  {
    CountKindAppend(a, b, k);
    CountKindAppend(c, e, k);
    CountKindAppend(a + b, c + e, k);
  }

  lemma StaticAppend(ps: seq<Placement>, qs: seq<Placement>)
    requires Static(ps) && Static(qs)
    ensures Static(ps + qs)
  {
    forall i | 0 <= i < |ps + qs| ensures (ps + qs)[i].kind != Character {
      if i < |ps| { assert (ps + qs)[i] == ps[i]; } else { assert (ps + qs)[i] == qs[i - |ps|]; }
    }
  }

  /** A batch of n iterations holds 8n stone blocks, no character, and five
      coins for every bottom obstacle: one middle row per iteration plus one
      per `false` draw at 23 or 1. */
  lemma {:induction false} BatchCounts(start: real, draws: seq<Draw>)
    ensures CountKind(Batch(start, draws), Coin) == 5 * (|draws| + BottomDraws(draws))
    ensures CountKind(Batch(start, draws), StoneBlock) == 8 * |draws|
    ensures CountKind(Batch(start, draws), Ground) == 0
    ensures Static(Batch(start, draws))
  {
    if draws != [] {
      var p, n := draws[..|draws| - 1], |draws| - 1;
      var d := draws[n];
      var before, it := Batch(start, p), Iteration(start, n, d);
      assert Batch(start, draws) == before + it;
      assert BottomDraws(draws) == BottomDraws(p) + (if d.band23 then 0 else 1) + (if d.band1 then 0 else 1);
      BatchCounts(start, p);
      IterationCounts(start, n, d);
      CountKindAppend(before, it, Coin);
      CountKindAppend(before, it, StoneBlock);
      CountKindAppend(before, it, Ground);
      StaticAppend(before, it);
    }
  }

  /** From a non-negative start, the obstacle columns of successive iterations
      are exactly 17 metres apart and never to the left of 0. */
  lemma BatchColumnsAdvance(start: real, i: nat)
    requires 0.0 <= start
    ensures 0 <= Trunc(Anchor(start, i) + 12.0 * i as real)
    ensures Trunc(Anchor(start, i + 1) + 12.0 * (i + 1) as real) == Trunc(Anchor(start, i) + 12.0 * i as real) + 17
  {
    var x := Anchor(start, i) + 12.0 * i as real;
    assert Anchor(start, i + 1) + 12.0 * (i + 1) as real == x + 17 as real;
    TruncShift(x, 17);
  }

  /** The ending appends nine records: two 10 x 2 blocks, the top strip, then
      the bottom strip's staircase and the bottom strip, both strips 20 metres
      to the right of the rightmost record. */
  lemma EndingGeometry(largestPosX: real)
    ensures |Ending(largestPosX)| == 9
    ensures Ending(largestPosX)[2] == Placement(Ground, 20.0, 10.0, Vec(largestPosX + 20.0, 0.0))
    ensures Ending(largestPosX)[8] == Placement(Ground, 20.0, 10.0, Vec(largestPosX + 20.0, 25.0))
    ensures Ending(largestPosX)[0].at.y == 23.0 && Ending(largestPosX)[1].at.y == 1.0
    ensures Static(Ending(largestPosX))
  {
  }
}
