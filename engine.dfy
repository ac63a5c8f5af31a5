/** The game object (`gameEng::Game`) with the registry globals it shares:
    `entityList`, `currentScore`, `bodyToBeDestroy`. Box2D is replaced by a
    table of body positions indexed by handle; destroying a body, setting a
    velocity or gravity and starting the coin sound are recorded as effects. */
module Engine {
  import opened Registry
  import opened Layout

  /** The record realises the placement: same tag and size, and its body sits
      at the placement's position. */
  ghost predicate Realises(e: Entity, p: Placement, pos: seq<Vec>)
  {
    e.kind == p.kind && e.width == p.width && e.height == p.height
    && e.body < |pos| && pos[e.body] == p.at
  }

  /** `added` realises `ps` one to one, on distinct bodies created at or
      after handle `lo`. */
  ghost predicate Fresh(added: seq<Entity>, ps: seq<Placement>, pos: seq<Vec>, lo: nat)
  {
    |added| == |ps| && DistinctBodies(added)
    && forall i :: 0 <= i < |added| ==> Realises(added[i], ps[i], pos) && lo <= added[i].body
  }

  /** Going from (e0, p0) to (e1, p1), the registry gained one record per
      placement of `ps`, in order, each on a body of its own created in
      between, and the table of positions only grew. */
  ghost predicate Appends(e0: seq<Entity>, e1: seq<Entity>, p0: seq<Vec>, p1: seq<Vec>, ps: seq<Placement>)
  {
    |p1| == |p0| + |ps| && p1[..|p0|] == p0
    && |e1| == |e0| + |ps| && e1[..|e0|] == e0
    && Fresh(e1[|e0|..], ps, p1, |p0|)
  }

  /** The registry's invariant: unique handles, every handle has a position,
      no record refers to a destroyed body. */
  ghost predicate Registered(es: seq<Entity>, pos: seq<Vec>, destroyed: seq<BodyId>)
  {
    DistinctBodies(es) && Located(es, pos)
    && (forall i :: 0 <= i < |es| ==> es[i].body !in destroyed)
    && (forall j :: 0 <= j < |destroyed| ==> destroyed[j] < |pos|)
  }

  /** Exactly the records on the character's body are character records, and
      there is one. */
  ghost predicate Tracks(es: seq<Entity>, character: BodyId)
  {
    (forall i :: 0 <= i < |es| ==> (es[i].kind == Character <==> es[i].body == character))
    && HasBody(es, character)
  }

  lemma AppendsNothing(e: seq<Entity>, p: seq<Vec>)
    ensures Appends(e, e, p, p, [])
  {
  }

  lemma FreshGrow(a: seq<Entity>, ps: seq<Placement>, p1: seq<Vec>, p2: seq<Vec>, lo: nat)
    requires Fresh(a, ps, p1, lo) && |p1| <= |p2| && p2[..|p1|] == p1
    ensures Fresh(a, ps, p2, lo)
    ensures forall i :: 0 <= i < |a| ==> a[i].body < |p1|
  {
    forall i | 0 <= i < |a| ensures Realises(a[i], ps[i], p2) && a[i].body < |p1| {
      assert Realises(a[i], ps[i], p1);
      assert p2[a[i].body] == p2[..|p1|][a[i].body];
    }
  }

  lemma FreshConcat(a: seq<Entity>, b: seq<Entity>, ps: seq<Placement>, qs: seq<Placement>,
                    p1: seq<Vec>, p2: seq<Vec>, lo: nat)
    requires Fresh(a, ps, p1, lo) && Fresh(b, qs, p2, |p1|) && lo <= |p1|
    requires |p1| <= |p2| && p2[..|p1|] == p1
    ensures Fresh(a + b, ps + qs, p2, lo)
  {
    FreshGrow(a, ps, p1, p2, lo);
    var t := a + b;
    forall i, j | 0 <= i < j < |t| ensures t[i].body != t[j].body {
      if j < |a| {
        assert t[i] == a[i] && t[j] == a[j];
      } else if |a| <= i {
        assert t[i] == b[i - |a|] && t[j] == b[j - |a|];
      } else {
        assert t[i] == a[i] && t[j] == b[j - |a|];
      }
    }
    forall i | 0 <= i < |t| ensures Realises(t[i], (ps + qs)[i], p2) && lo <= t[i].body {
      if i < |a| {
        assert t[i] == a[i] && (ps + qs)[i] == ps[i];
      } else {
        assert t[i] == b[i - |a|] && (ps + qs)[i] == qs[i - |a|];
      }
    }
  }

  lemma AppendsTrans(e0: seq<Entity>, e1: seq<Entity>, e2: seq<Entity>,
                     p0: seq<Vec>, p1: seq<Vec>, p2: seq<Vec>, ps: seq<Placement>, qs: seq<Placement>)
    requires Appends(e0, e1, p0, p1, ps) && Appends(e1, e2, p1, p2, qs)
    ensures Appends(e0, e2, p0, p2, ps + qs)
  {
    assert p2[..|p0|] == p2[..|p1|][..|p0|];
    assert e2[..|e0|] == e2[..|e1|][..|e0|];
    assert e2[|e0|..] == e1[|e0|..] + e2[|e1|..] by {
      assert e2 == e2[..|e1|] + e2[|e1|..];
    }
    FreshConcat(e1[|e0|..], e2[|e1|..], ps, qs, p1, p2, |p0|);
  }

  /** One more placement of a list realised. */
  lemma AppendsStep(e0: seq<Entity>, e1: seq<Entity>, e2: seq<Entity>,
                    p0: seq<Vec>, p1: seq<Vec>, p2: seq<Vec>, ps: seq<Placement>, i: nat)
    requires i < |ps|
    requires Appends(e0, e1, p0, p1, ps[..i]) && Appends(e1, e2, p1, p2, [ps[i]])
    ensures Appends(e0, e2, p0, p2, ps[..i + 1])
  {
    assert ps[..i + 1] == ps[..i] + [ps[i]];
    AppendsTrans(e0, e1, e2, p0, p1, p2, ps[..i], [ps[i]]);
  }

  lemma AppendsRegistered(e0: seq<Entity>, e1: seq<Entity>, p0: seq<Vec>, p1: seq<Vec>,
                          destroyed: seq<BodyId>, ps: seq<Placement>)
    requires Registered(e0, p0, destroyed) && Appends(e0, e1, p0, p1, ps)
    ensures Registered(e1, p1, destroyed)
  {
    var t := e1[|e0|..];
    FreshGrow(t, ps, p1, p1, |p0|);
    assert e1 == e0 + t by {
      assert e1 == e1[..|e0|] + e1[|e0|..];
    }
    forall i, j | 0 <= i < j < |e1| ensures e1[i].body != e1[j].body {
      if |e0| <= i {
        assert t[i - |e0|] == e1[i] && t[j - |e0|] == e1[j];
      } else if j < |e0| {
        assert e0[i] == e1[i] && e0[j] == e1[j];
      } else {
        assert e0[i] == e1[i] && t[j - |e0|] == e1[j];
      }
    }
    forall i | 0 <= i < |e1| ensures e1[i].body < |p1| && e1[i].body !in destroyed {
      if i < |e0| {
        assert e0[i] == e1[i];
      } else {
        assert t[i - |e0|] == e1[i];
        assert |p0| <= e1[i].body;
      }
    }
  }

  lemma AppendsTracks(e0: seq<Entity>, e1: seq<Entity>, p0: seq<Vec>, p1: seq<Vec>,
                      ps: seq<Placement>, c: BodyId)
    requires Appends(e0, e1, p0, p1, ps) && Static(ps)
    requires Tracks(e0, c) && c < |p0|
    ensures Tracks(e1, c)
  {
    var t := e1[|e0|..];
    forall i | 0 <= i < |e1| ensures e1[i].kind == Character <==> e1[i].body == c {
      if i < |e0| {
        assert e0[i] == e1[i];
      } else {
        assert t[i - |e0|] == e1[i];
        assert Realises(t[i - |e0|], ps[i - |e0|], p1);
      }
    }
    var k :| 0 <= k < |e0| && e0[k].body == c;
    assert e1[k] == e0[k];
  }

  /** The corridor followed by the playfield is the initial layout, whose
      registry is valid with the character record at index 7. */
  lemma InitialWorld(e1: seq<Entity>, e2: seq<Entity>, p1: seq<Vec>, p2: seq<Vec>)
    requires Appends([], e1, [], p1, CorridorLayout()) && Appends(e1, e2, p1, p2, PlayfieldLayout())
    ensures |e1| == 7 && Appends([], e2, [], p2, InitialLayout())
    ensures Registered(e2, p2, []) && Tracks(e2, e2[7].body)
  {
    AppendsTrans([], e1, e2, [], p1, p2, CorridorLayout(), PlayfieldLayout());
    assert |e1| == |CorridorLayout()| == 7;
    AppendsRegistered([], e2, [], p2, [], InitialLayout());
    InitialTracks(e2, p2);
  }

  /** The records a registry starts from realise the initial layout; the
      record on the character's body is the only character record. */
  lemma InitialTracks(es: seq<Entity>, pos: seq<Vec>)
    requires Appends([], es, [], pos, InitialLayout())
    ensures Tracks(es, es[7].body)
  {
    InitialLayoutFacts();
    assert es[0..] == es;
    forall i | 0 <= i < |es| ensures es[i].kind == Character <==> es[i].body == es[7].body {
      assert Realises(es[i], InitialLayout()[i], pos);
    }
  }

  /** Erasing one non-character record and destroying its body keeps both
      invariants. */
  lemma EraseKeeps(es: seq<Entity>, pos: seq<Vec>, destroyed: seq<BodyId>, c: BodyId, k: nat)
    requires Registered(es, pos, destroyed) && Tracks(es, c) && k < |es| && es[k].body != c
    ensures Registered(es[..k] + es[k + 1..], pos, destroyed + [es[k].body])
    ensures Tracks(es[..k] + es[k + 1..], c)
  {
    DropOneSpec(es, k);
    var r := es[..k] + es[k + 1..];
    assert forall i :: 0 <= i < |r| ==> r[i] == es[if i < k then i else i + 1];
  }

  /** Score the contacts of one physics step add, one BeginContact per pair. */
  function ContactHits(es: seq<Entity>, contacts: seq<(BodyId, BodyId)>): nat
  {
    if contacts == [] then 0
    else
      var c := contacts[|contacts| - 1];
      ContactHits(es, contacts[..|contacts| - 1]) + CoinHits(es, c.0, c.1)
  }

  /** The pending slot after the contacts of one step, starting from `p`. */
  function PendingAfter(es: seq<Entity>, contacts: seq<(BodyId, BodyId)>, p: Option<BodyId>): Option<BodyId>
  {
    if contacts == [] then p
    else
      var c := contacts[|contacts| - 1];
      var before := PendingAfter(es, contacts[..|contacts| - 1], p);
      if LastCoinHit(es, c.0, c.1).Some? then LastCoinHit(es, c.0, c.1) else before
  }

  /** With unique handles a step adds at most two points per contact. */
  lemma {:induction false} ContactHitsBound(es: seq<Entity>, contacts: seq<(BodyId, BodyId)>)
    requires DistinctBodies(es)
    ensures ContactHits(es, contacts) <= 2 * |contacts|
  {
    if contacts != [] {
      var c := contacts[|contacts| - 1];
      ContactHitsBound(es, contacts[..|contacts| - 1]);
      CoinHitsAtMostTwo(es, c.0, c.1);
    }
  }

  /** From an empty slot, the step leaves it empty exactly when the score did
      not move, and otherwise it names a coin record of the registry. */
  lemma {:induction false} PendingAfterIsCoin(es: seq<Entity>, contacts: seq<(BodyId, BodyId)>)
    ensures PendingAfter(es, contacts, None).None? <==> ContactHits(es, contacts) == 0
    ensures PendingAfter(es, contacts, None).Some? ==>
      exists i :: 0 <= i < |es| && es[i].body == PendingAfter(es, contacts, None).value && es[i].kind == Coin
  {
    if contacts != [] {
      var c := contacts[|contacts| - 1];
      PendingAfterIsCoin(es, contacts[..|contacts| - 1]);
      LastCoinHitSpec(es, c.0, c.1);
    }
  }

  class Game {
    /** entityList */
    var entities: seq<Entity>
    /** Position of every body ever created, indexed by handle; |pos| is the next handle. */
    var pos: seq<Vec>
    /** Handles passed to DestroyBody, in order. */
    var destroyed: seq<BodyId>
    /** pCharacter */
    var character: BodyId
    /** currentScore */
    var score: nat
    /** bodyToBeDestroy (None for nullptr) */
    var pending: Option<BodyId>
    /** The character's linear velocity as last set. */
    var velocity: Vec
    /** The world's gravity as last set. */
    var gravity: Vec
    /** Number of times the coin sound was started. */
    var coinSoundPlays: nat

    ghost predicate Valid()
      reads this`entities, this`pos, this`destroyed, this`character, this`pending
    {
      Registered(entities, pos, destroyed) && character < |pos| && Tracks(entities, character)
      && (pending.Some? ==> pending.value != character)
    }

    /** Game(): builds the initial world in the source's order. */
    constructor ()
      ensures Valid()
      ensures Appends([], entities, [], pos, InitialLayout())
      ensures character == entities[7].body
      ensures destroyed == [] && score == 0 && pending == None && coinSoundPlays == 0
      ensures velocity == Vec(0.0, 0.0) && gravity == Vec(0.0, -10.0)
    {
      entities, pos, destroyed := [], [], [];
      character, score, pending := 0, 0, None;
      velocity, gravity := Vec(0.0, 0.0), Vec(0.0, -10.0);
      coinSoundPlays := 0;
      new;
      CreateCorridor();
      ghost var e1, p1 := entities, pos;
      CreatePlayfield();
      InitialWorld(e1, entities, p1, pos);
    }

    /** The two ground strips: the top one, then the bottom one with its staircase. */
    method CreateCorridor()
      modifies this`entities, this`pos
      ensures Appends(old(entities), entities, old(pos), pos, CorridorLayout())
    {
      var _ := CreateGround(GroundWidth, GroundHeight, 0.0, 0.0, true);
      ghost var e1, p1 := entities, pos;
      var _ := CreateGround(GroundWidth, GroundHeight, 0.0, 0.0 + 25.0 + 0.0, false);
      AppendsTrans(old(entities), e1, entities, old(pos), p1, pos,
        GroundStrip(GroundWidth, GroundHeight, 0.0, 0.0, true), GroundStrip(GroundWidth, GroundHeight, 0.0, 25.0, false));
    }

    /** The character, then the slabs and block groups of the field. */
    method CreatePlayfield()
      modifies this`entities, this`pos, this`character
      ensures Appends(old(entities), entities, old(pos), pos, PlayfieldLayout())
      ensures character == entities[|old(entities)|].body
    {
      var _ := CreateCharacter(CharacterWidth, CharacterHeight, 0.0 - GroundWidth / 2.0 + CharacterWidth / 2.0, 10.0);
      ghost var e1, p1 := entities, pos;
      CreateField();
      AppendsTrans(old(entities), e1, entities, old(pos), p1, pos, [CharacterAt(-9.0, 10.0)],
        [Block(30.0, 2.0, 25.0, 25.0)] + FieldBlocks() + [Block(30.0, 2.0, 25.0, 0.0)]);
      assert entities[..|e1|][|old(entities)|] == entities[|old(entities)|];
    }

    /** The part of Game() after the character: the slab under the field, the
        block groups, and the slab above it. */
    method CreateField()
      modifies this`entities, this`pos
      ensures Appends(old(entities), entities, old(pos), pos,
        [Block(30.0, 2.0, 25.0, 25.0)] + FieldBlocks() + [Block(30.0, 2.0, 25.0, 0.0)])
    {
      var _ := CreateStoneBlock(30.0, 2.0, 25.0, 25.0);
      ghost var e1, p1 := entities, pos;
      AppendsNothing(entities, pos);
      for i := 0 to 3
        invariant Appends(e1, entities, p1, pos, FieldRounds(i))
      {
        ghost var ei, pi := entities, pos;
        CreateFieldRound(i);
        AppendsTrans(e1, ei, entities, p1, pi, pos, FieldRounds(i), FieldRound(i));
      }
      AppendsTrans(old(entities), e1, entities, old(pos), p1, pos, [Block(30.0, 2.0, 25.0, 25.0)], FieldBlocks());
      ghost var e2, p2 := entities, pos;
      var _ := CreateStoneBlock(30.0, 2.0, 25.0, 0.0);
      AppendsTrans(old(entities), e2, entities, old(pos), p2, pos,
        [Block(30.0, 2.0, 25.0, 25.0)] + FieldBlocks(), [Block(30.0, 2.0, 25.0, 0.0)]);
    }

    /** The body of the constructor's loop for round i. */
    method CreateFieldRound(i: nat)
      requires i < 3
      modifies this`entities, this`pos
      ensures Appends(old(entities), entities, old(pos), pos, FieldRound(i))
    {
      if i != 2 {
        CreateBlockGroup(Trunc(10.0 + (10.0 * i as real)), Trunc(18.0 - (3.0 * i as real)));
      } else if i == 2 {
        CreateBlockGroup(Trunc(10.0 + (10.0 * i as real)), Trunc(6.978 + (3.0 * i as real)));
      }
      ghost var e1, p1 := entities, pos;
      ghost var upper := if i != 2 then BlockGroup(Trunc(10.0 + 10.0 * i as real), Trunc(18.0 - 3.0 * i as real))
        else BlockGroup(Trunc(10.0 + 10.0 * i as real), Trunc(6.978 + 3.0 * i as real));
      if i < 2 {
        CreateBlockGroup(Trunc(10.0 + (10.0 * i as real)), Trunc(7.0 + (3.0 * i as real)));
        AppendsTrans(old(entities), e1, entities, old(pos), p1, pos, upper,
          BlockGroup(Trunc(10.0 + 10.0 * i as real), Trunc(7.0 + 3.0 * i as real)));
      } else {
        AppendsNothing(entities, pos);
        AppendsTrans(old(entities), e1, entities, old(pos), p1, pos, upper, []);
      }
    }

    /** Creates a body at `p`'s position and appends its record: the common
        part of createStoneBlock, createCharacter and createCoin. */
    method Spawn(p: Placement) returns (b: BodyId)
      modifies this`entities, this`pos
      ensures b == old(|pos|)
      ensures entities == old(entities) + [Entity(p.kind, b, p.width, p.height)]
      ensures pos == old(pos) + [p.at]
      ensures Appends(old(entities), entities, old(pos), pos, [p])
    {
      b := |pos|;
      pos := pos + [p.at];
      entities := entities + [Entity(p.kind, b, p.width, p.height)];
      assert entities[|old(entities)|..] == [Entity(p.kind, b, p.width, p.height)];
      assert pos[..|old(pos)|] == old(pos);
    }

    method CreateStoneBlock(width: real, height: real, x: real, y: real) returns (b: BodyId)
      modifies this`entities, this`pos
      ensures Appends(old(entities), entities, old(pos), pos, [Block(width, height, x, y)])
      ensures b == old(|pos|) && entities[|entities| - 1].body == b
    {
      b := Spawn(Block(width, height, x, y));
    }

    method CreateCoin(width: real, height: real, x: real, y: real) returns (b: BodyId)
      modifies this`entities, this`pos
      ensures Appends(old(entities), entities, old(pos), pos, [Placement(Coin, width, height, Vec(x, y))])
      ensures b == old(|pos|) && entities[|entities| - 1].body == b
    {
      b := Spawn(Placement(Coin, width, height, Vec(x, y)));
    }

    /** createCharacter: the new body becomes the character. */
    method CreateCharacter(width: real, height: real, x: real, y: real) returns (b: BodyId)
      modifies this`entities, this`pos, this`character
      ensures Appends(old(entities), entities, old(pos), pos, [Placement(Character, width, height, Vec(x, y))])
      ensures character == b && b == old(|pos|) && entities[|entities| - 1].body == b
    {
      b := Spawn(Placement(Character, width, height, Vec(x, y)));
      character := b;
    }

    /** createGround: the ground body is created first, then the staircase of a
        bottom strip, and the ground record is appended last. */
    method CreateGround(width: real, height: real, px: real, py: real, isTop: bool) returns (b: BodyId)
      modifies this`entities, this`pos
      ensures Appends(old(entities), entities, old(pos), pos, GroundStrip(width, height, px, py, isTop))
      ensures b == old(|pos|) && entities[|entities| - 1] == Entity(Ground, b, width, height)
    {
      b := |pos|;
      pos := pos + [Vec(px, py)];
      ghost var p0 := pos;
      ghost var stairs: seq<Placement> := if isTop then [] else Stairs(px);
      if isTop {
        AppendsNothing(entities, pos);
      } else {
        CreateStairs(px);
      }
      ghost var e1 := entities;
      entities := entities + [Entity(Ground, b, width, height)];
      assert pos[b] == Vec(px, py) by {
        assert pos[..|p0|] == p0;
      }
      FinishGround(old(entities), e1, entities, old(pos), pos, stairs, Placement(Ground, width, height, Vec(px, py)), b);
    }

    /** The staircase loop of createGround: five stone blocks one block width
        apart, climbing for three steps and then coming down. */
    method CreateStairs(px: real)
      modifies this`entities, this`pos
      ensures Appends(old(entities), entities, old(pos), pos, Stairs(px))
    {
      ghost var stairs := Stairs(px);
      AppendsNothing(entities, pos);
      var dynamicPositionY := 0.0;
      var dynamicPosX := 0.0;
      for i := 0 to 5
        invariant Appends(old(entities), entities, old(pos), pos, stairs[..i])
        invariant i > 0 ==> dynamicPositionY == StairY(i - 1)
      {
        dynamicPosX := ((StoneBlockWidth / 2.0) + px) - GroundWidth / 2.0 + (StoneBlockWidth * i as real);
        if i <= 2 {
          dynamicPositionY := ((GroundHeight / 2.0) + StoneBlockHeight / 2.0) + (StoneBlockWidth / 2.0 * i as real);
        } else {
          dynamicPositionY := dynamicPositionY - (StoneBlockWidth / 2.0);
        }
        ghost var ei, pi := entities, pos;
        var _ := CreateStoneBlock(StoneBlockWidth, StoneBlockHeight, dynamicPosX, dynamicPositionY);
        assert stairs[i] == Block(StoneBlockWidth, StoneBlockHeight, dynamicPosX, dynamicPositionY);
        assert stairs[..i + 1] == stairs[..i] + [stairs[i]];
        AppendsTrans(old(entities), ei, entities, old(pos), pi, pos, stairs[..i], [stairs[i]]);
      }
      assert stairs[..|stairs|] == stairs;
    }

    /** createBlockGroup */
    method CreateBlockGroup(x: int, y: int)
      modifies this`entities, this`pos
      ensures Appends(old(entities), entities, old(pos), pos, BlockGroup(x, y))
    {
      var _ := CreateStoneBlock(10.0, 2.0, x as real + 10.0, y as real);
    }

    /** createObstacles: platform and capstone, then the coin row. */
    method CreateObstacles(x: int, y: int, isTop: bool)
      modifies this`entities, this`pos
      ensures Appends(old(entities), entities, old(pos), pos, Obstacles(x, y, isTop))
    {
      ghost var blocks := Obstacles(x, y, isTop)[..2];
      CreateObstacleBlocks(x, y, isTop);
      ghost var e1, p1 := entities, pos;
      CreateCoinRow(x, y, isTop);
      AppendsTrans(old(entities), e1, entities, old(pos), p1, pos, blocks, CoinRow(x, y, isTop));
      assert blocks + CoinRow(x, y, isTop) == Obstacles(x, y, isTop);
    }

    /** The first loop of createObstacles: the platform, then the capstone. */
    method CreateObstacleBlocks(x: int, y: int, isTop: bool)
      modifies this`entities, this`pos
      ensures Appends(old(entities), entities, old(pos), pos, Obstacles(x, y, isTop)[..2])
    {
      ghost var ps := Obstacles(x, y, isTop)[..2];
      AppendsNothing(entities, pos);
      var obstaclesHeight := 2.0;
      if isTop {
        obstaclesHeight := 2.0;
      } else {
        obstaclesHeight := -2.0;
      }
      for i := 0 to 2
        invariant Appends(old(entities), entities, old(pos), pos, ps[..i])
      {
        ghost var ei, pi := entities, pos;
        if i == 1 {
          var _ := CreateStoneBlock(2.0, 2.0, (x + 10) as real, y as real + obstaclesHeight);
        } else {
          var _ := CreateStoneBlock(12.0, 2.0, (x + 5) as real, y as real);
        }
        AppendsStep(old(entities), ei, entities, old(pos), pi, pos, ps, i);
      }
      assert ps[..2] == ps;
    }

    /** The second loop of createObstacles: a coin per pass, for a bottom
        obstacle at one of the four coin heights. */
    method CreateCoinRow(x: int, y: int, isTop: bool)
      modifies this`entities, this`pos
      ensures Appends(old(entities), entities, old(pos), pos, CoinRow(x, y, isTop))
    {
      ghost var ps := CoinRow(x, y, isTop);
      ghost var coins := !isTop && CoinRowOffset(y).Some?;
      AppendsNothing(entities, pos);
      for i := 0 to 5
        invariant Appends(old(entities), entities, old(pos), pos, ps[..if coins then i else 0])
      {
        ghost var ei, pi := entities, pos;
        if !isTop {
          if y == 23 {
            var _ := CreateCoin(CoinWidth, CoinHeight, x as real + (2.0 * i as real), y as real - 2.0);
          } else if y == 1 {
            var _ := CreateCoin(CoinWidth, CoinHeight, x as real + (2.0 * i as real), y as real + 2.0);
          } else if y == 14 {
            var _ := CreateCoin(CoinWidth, CoinHeight, x as real + (2.0 * i as real), y as real + 2.0);
          } else if y == 11 {
            var _ := CreateCoin(CoinWidth, CoinHeight, x as real + (2.0 * i as real), y as real - 2.0);
          }
        }
        if coins {
          AppendsStep(old(entities), ei, entities, old(pos), pi, pos, ps, i);
        }
      }
      assert ps[..if coins then 5 else 0] == ps;
    }

    /** The four obstacles of iteration i of a streaming batch, from the
        anchor the batch loop has reached. */
    method CreateIteration(largestPosX: real, i: nat, d: Draw, ghost start: real)
      requires largestPosX == Anchor(start, i)
      modifies this`entities, this`pos
      ensures Appends(old(entities), entities, old(pos), pos, Iteration(start, i, d))
    {
      var x := largestPosX + (12.0 * i as real);
      var isTop := d.mid;
      CreateUpperPair(x, i, d.band23, isTop);
      ghost var e1, p1 := entities, pos;
      CreateLowerPair(x, i, isTop, d.band1);
      AppendsTrans(old(entities), e1, entities, old(pos), p1, pos,
        Obstacles(Trunc(x), 23, d.band23) + Obstacles(Trunc(x + 8.0), 14, MidFlags(i, d.mid).0),
        Obstacles(Trunc(x + 8.0), 11, MidFlags(i, d.mid).1) + Obstacles(Trunc(x), 1, d.band1));
      IterationSplit(start, i, d, x);
    }

    /** The obstacles at 23 and 14 of one iteration. */
    method CreateUpperPair(x: real, i: nat, band23: bool, isTop: bool)
      modifies this`entities, this`pos
      ensures Appends(old(entities), entities, old(pos), pos,
        Obstacles(Trunc(x), 23, band23) + Obstacles(Trunc(x + 8.0), 14, MidFlags(i, isTop).0))
    {
      CreateObstacles(Trunc(x), 23, band23);
      ghost var e1, p1 := entities, pos;
      if i == 9 {
        CreateObstacles(Trunc(x + 8.0), 14, false);
      } else {
        CreateObstacles(Trunc(x + 8.0), 14, isTop);
      }
      AppendsTrans(old(entities), e1, entities, old(pos), p1, pos,
        Obstacles(Trunc(x), 23, band23), Obstacles(Trunc(x + 8.0), 14, MidFlags(i, isTop).0));
    }

    /** The obstacles at 11 and 1 of one iteration. */
    method CreateLowerPair(x: real, i: nat, isTop: bool, band1: bool)
      modifies this`entities, this`pos
      ensures Appends(old(entities), entities, old(pos), pos,
        Obstacles(Trunc(x + 8.0), 11, MidFlags(i, isTop).1) + Obstacles(Trunc(x), 1, band1))
    {
      if i == 9 {
        CreateObstacles(Trunc(x + 8.0), 11, true);
      } else {
        CreateObstacles(Trunc(x + 8.0), 11, !isTop);
      }
      ghost var e1, p1 := entities, pos;
      CreateObstacles(Trunc(x), 1, band1);
      AppendsTrans(old(entities), e1, entities, old(pos), p1, pos,
        Obstacles(Trunc(x + 8.0), 11, MidFlags(i, isTop).1), Obstacles(Trunc(x), 1, band1));
    }

    /** One streaming batch from main: ten iterations of four obstacles, the
        three random flags of each iteration taken from `draws`. */
    method StreamBatch(start: real, draws: seq<Draw>)
      requires Valid() && |draws| == BatchIterations
      modifies this`entities, this`pos
      ensures Valid()
      ensures Appends(old(entities), entities, old(pos), pos, Batch(start, draws))
    {
      CreateBatch(start, draws);
      BatchCounts(start, draws);
      AppendsRegistered(old(entities), entities, old(pos), pos, destroyed, Batch(start, draws));
      AppendsTracks(old(entities), entities, old(pos), pos, Batch(start, draws), character);
    }

    /** The loop of a streaming batch, with the anchor it moves along. */
    method CreateBatch(start: real, draws: seq<Draw>)
      requires |draws| == BatchIterations
      modifies this`entities, this`pos
      ensures Appends(old(entities), entities, old(pos), pos, Batch(start, draws))
    {
      var largestPosX := start;
      AppendsNothing(entities, pos);
      for i := 0 to BatchIterations
        invariant largestPosX == if i == 0 then start else Anchor(start, i - 1)
        invariant Appends(old(entities), entities, old(pos), pos, Batch(start, draws[..i]))
      {
        AnchorStep(start, i);
        if i == 0 && largestPosX >= 90.0 {
          largestPosX := largestPosX - 2.0;
        } else {
          largestPosX := largestPosX + 5.0;
        }
        ghost var ei, pi := entities, pos;
        CreateIteration(largestPosX, i, draws[i], start);
        BatchStep(old(entities), ei, entities, old(pos), pi, pos, start, draws, i);
      }
      assert draws[..BatchIterations] == draws;
    }

    /** The one-shot closing scene from main. */
    method CreateEnding(largestPosX: real)
      requires Valid()
      modifies this`entities, this`pos
      ensures Valid()
      ensures Appends(old(entities), entities, old(pos), pos, Ending(largestPosX))
    {
      CreateEndingBlocks(largestPosX);
      ghost var e1, p1 := entities, pos;
      CreateEndingGrounds(largestPosX);
      AppendsTrans(old(entities), e1, entities, old(pos), p1, pos,
        BlockGroup(Trunc(largestPosX - 10.0), 23) + BlockGroup(Trunc(largestPosX - 10.0), 1),
        GroundStrip(GroundWidth, GroundHeight, largestPosX + 20.0, 0.0, true)
        + GroundStrip(GroundWidth, GroundHeight, largestPosX + 20.0, 25.0, false));
      EndingSplit(largestPosX);
      EndingGeometry(largestPosX);
      AppendsRegistered(old(entities), entities, old(pos), pos, destroyed, Ending(largestPosX));
      AppendsTracks(old(entities), entities, old(pos), pos, Ending(largestPosX), character);
    }

    /** The two block groups of the closing scene, at heights 23 and 1. */
    method CreateEndingBlocks(largestPosX: real)
      modifies this`entities, this`pos
      ensures Appends(old(entities), entities, old(pos), pos,
        BlockGroup(Trunc(largestPosX - 10.0), 23) + BlockGroup(Trunc(largestPosX - 10.0), 1))
    {
      CreateBlockGroup(Trunc(largestPosX - 10.0), 23);
      ghost var e1, p1 := entities, pos;
      CreateBlockGroup(Trunc(largestPosX - 10.0), 1);
      AppendsTrans(old(entities), e1, entities, old(pos), p1, pos,
        BlockGroup(Trunc(largestPosX - 10.0), 23), BlockGroup(Trunc(largestPosX - 10.0), 1));
    }

    /** The two ground strips of the closing scene, 20 m right of the rightmost x. */
    method CreateEndingGrounds(largestPosX: real)
      modifies this`entities, this`pos
      ensures Appends(old(entities), entities, old(pos), pos,
        GroundStrip(GroundWidth, GroundHeight, largestPosX + 20.0, 0.0, true)
        + GroundStrip(GroundWidth, GroundHeight, largestPosX + 20.0, 25.0, false))
    {
      var _ := CreateGround(20.0, 10.0, largestPosX + 20.0, 0.0, true);
      ghost var e1, p1 := entities, pos;
      var _ := CreateGround(20.0, 10.0, largestPosX + 20.0, 0.0 + 25.0 + 0.0, false);
      AppendsTrans(old(entities), e1, entities, old(pos), p1, pos,
        GroundStrip(GroundWidth, GroundHeight, largestPosX + 20.0, 0.0, true),
        GroundStrip(GroundWidth, GroundHeight, largestPosX + 20.0, 25.0, false));
    }

    /** BeginContact: every coin record on either body adds a point and becomes
        the pending body; the registry itself is not touched. */
    method BeginContact(a: BodyId, b: BodyId)
      requires Valid()
      modifies this`score, this`pending
      ensures Valid()
      ensures score == old(score) + CoinHits(entities, a, b)
      ensures pending == if LastCoinHit(entities, a, b).Some? then LastCoinHit(entities, a, b) else old(pending)
    {
      for i := 0 to |entities|
        invariant score == old(score) + CoinHits(entities[..i], a, b)
        invariant pending == if LastCoinHit(entities[..i], a, b).Some? then LastCoinHit(entities[..i], a, b) else old(pending)
        invariant pending.Some? ==> pending.value != character
      {
        assert entities[..i + 1][..i] == entities[..i];
        if (entities[i].body == a || entities[i].body == b) && entities[i].kind == Coin {
          pending := Some(entities[i].body);
          score := score + 1;
        }
      }
      assert entities[..|entities|] == entities;
    }

    /** The first loop of Game::update: destroys the pending body and erases
        its record, if it is registered, and starts the coin sound unless it
        is already playing. */
    method DestroyPending(coinSoundPlaying: bool)
      requires Valid()
      modifies this`entities, this`pending, this`destroyed, this`coinSoundPlays
      ensures Valid()
      ensures old(pending).Some? && HasBody(old(entities), old(pending).value) ==>
        entities == RemoveFirst(old(entities), old(pending).value)
        && pending == None
        && destroyed == old(destroyed) + [old(pending).value]
        && coinSoundPlays == old(coinSoundPlays) + (if coinSoundPlaying then 0 else 1)
      ensures !(old(pending).Some? && HasBody(old(entities), old(pending).value)) ==>
        entities == old(entities) && pending == old(pending)
        && destroyed == old(destroyed) && coinSoundPlays == old(coinSoundPlays)
    {
      var i := 0;
      while i < |entities|
        invariant 0 <= i <= |entities| + 1
        invariant Valid()
        invariant pending == old(pending) ==>
          entities == old(entities) && destroyed == old(destroyed) && coinSoundPlays == old(coinSoundPlays)
          && i <= |entities| && (pending.Some? ==> forall j :: 0 <= j < i ==> entities[j].body != pending.value)
        invariant pending != old(pending) ==>
          old(pending).Some? && pending == None && HasBody(old(entities), old(pending).value)
          && entities == RemoveFirst(old(entities), old(pending).value)
          && destroyed == old(destroyed) + [old(pending).value]
          && coinSoundPlays == old(coinSoundPlays) + (if coinSoundPlaying then 0 else 1)
        decreases |entities| + 1 - i
      {
        if pending.Some? && entities[i].body == pending.value {
          var h := pending.value;
          assert FirstIndexOf(entities, h) == i;
          assert HasBody(entities, h);
          EraseKeeps(entities, pos, destroyed, character, i);
          destroyed := destroyed + [h];
          entities := entities[..i] + entities[i + 1..];
          pending := None;
          if !coinSoundPlaying {
            coinSoundPlays := coinSoundPlays + 1;
          }
        }
        i := i + 1;
      }
      if old(pending).Some? && pending == old(pending) {
        assert !HasBody(old(entities), old(pending).value);
      }
    }

    /** The behind-camera prune from main, with the camera centre in pixels.
        The loop erases by index and still advances, as the source does. */
    method PruneBehind(camX: real)
      requires Valid()
      modifies this`entities, this`destroyed
      ensures Valid()
      ensures entities == Kept(old(entities), pos, camX)
      ensures destroyed == old(destroyed) + Pruned(old(entities), pos, camX)
    {
      var i := 0;
      PruneStart(entities, destroyed, pos, camX);
      while i < |entities|
        invariant Valid()
        invariant PruneInv(entities, destroyed, i, pos, camX, old(entities), old(destroyed))
        decreases |entities| + 1 - i
      {
        var e := entities[i];
        if Behind(e, pos, camX) {
          PruneErase(entities, destroyed, i, pos, character, camX, old(entities), old(destroyed));
          destroyed := destroyed + [e.body];
          entities := entities[..i] + entities[i + 1..];
        } else {
          PruneStepKeep(entities, destroyed, i, pos, camX, old(entities), old(destroyed));
        }
        i := i + 1;
      }
      PruneEnd(entities, destroyed, i, pos, camX, old(entities), old(destroyed));
    }

    /** Game::update without drawing: the physics step moves the character
        and reports contacts, each handled by BeginContact, then the pending
        coin is destroyed. */
    method Update(characterAt: Vec, contacts: seq<(BodyId, BodyId)>, coinSoundPlaying: bool)
      requires Valid()
      modifies this`pos, this`score, this`pending, this`entities, this`destroyed, this`coinSoundPlays
      ensures Valid()
      ensures pos == old(pos)[character := characterAt]
      ensures score == old(score) + ContactHits(old(entities), contacts)
      ensures var p := PendingAfter(old(entities), contacts, old(pending));
        if p.Some? && HasBody(old(entities), p.value) then
          entities == RemoveFirst(old(entities), p.value) && pending == None
          && destroyed == old(destroyed) + [p.value]
          && coinSoundPlays == old(coinSoundPlays) + (if coinSoundPlaying then 0 else 1)
        else
          entities == old(entities) && pending == p
          && destroyed == old(destroyed) && coinSoundPlays == old(coinSoundPlays)
    {
      pos := pos[character := characterAt];
      for i := 0 to |contacts|
        invariant Valid() && entities == old(entities) && destroyed == old(destroyed)
        invariant pos == old(pos)[character := characterAt] && coinSoundPlays == old(coinSoundPlays)
        invariant score == old(score) + ContactHits(entities, contacts[..i])
        invariant pending == PendingAfter(entities, contacts[..i], old(pending))
      {
        assert contacts[..i + 1][..i] == contacts[..i];
        BeginContact(contacts[i].0, contacts[i].1);
      }
      assert contacts[..|contacts|] == contacts;
      DestroyPending(coinSoundPlaying);
    }
  }

  /** The anchor's moves: -2 at the first iteration from 90 on, +5 otherwise. */
  lemma AnchorStep(start: real, i: nat)
    ensures i == 0 ==> Anchor(start, 0) == if start >= 90.0 then start - 2.0 else start + 5.0
    ensures i > 0 ==> Anchor(start, i) == Anchor(start, i - 1) + 5.0
  {
  }

  /** One more iteration extends the batch appended so far. */
  lemma BatchStep(e0: seq<Entity>, e1: seq<Entity>, e2: seq<Entity>, p0: seq<Vec>, p1: seq<Vec>, p2: seq<Vec>,
                  start: real, draws: seq<Draw>, i: nat)
    requires i < |draws|
    requires Appends(e0, e1, p0, p1, Batch(start, draws[..i]))
    requires Appends(e1, e2, p1, p2, Iteration(start, i, draws[i]))
    ensures Appends(e0, e2, p0, p2, Batch(start, draws[..i + 1]))
  {
    BatchSnoc(start, draws, i);
    AppendsTrans(e0, e1, e2, p0, p1, p2, Batch(start, draws[..i]), Iteration(start, i, draws[i]));
  }

  lemma BatchSnoc(start: real, draws: seq<Draw>, i: nat)
    requires i < |draws|
    ensures Batch(start, draws[..i + 1]) == Batch(start, draws[..i]) + Iteration(start, i, draws[i])
  {
    assert draws[..i + 1][..i] == draws[..i];
  }

  /** The prune loop's invariant at index i: the records before i and the
      loop's outcome on the rest make up its outcome on the whole list. The
      index may pass the end by one when the last record is erased. */
  ghost predicate PruneInv(es: seq<Entity>, d: seq<BodyId>, i: nat, pos: seq<Vec>, camX: real,
                           es0: seq<Entity>, d0: seq<BodyId>)
  {
    Located(es, pos) && Located(es0, pos) && i <= |es| + 1
    && (i <= |es| ==>
         es[..i] + Kept(es[i..], pos, camX) == Kept(es0, pos, camX)
         && d + Pruned(es[i..], pos, camX) == d0 + Pruned(es0, pos, camX))
    && (i == |es| + 1 ==> es == Kept(es0, pos, camX) && d == d0 + Pruned(es0, pos, camX))
  }

  lemma PruneStart(es: seq<Entity>, d: seq<BodyId>, pos: seq<Vec>, camX: real)
    requires Located(es, pos)
    ensures PruneInv(es, d, 0, pos, camX, es, d)
  {
    assert es[0..] == es;
  }

  lemma PruneEnd(es: seq<Entity>, d: seq<BodyId>, i: nat, pos: seq<Vec>, camX: real,
                 es0: seq<Entity>, d0: seq<BodyId>)
    requires PruneInv(es, d, i, pos, camX, es0, d0) && i >= |es|
    ensures es == Kept(es0, pos, camX) && d == d0 + Pruned(es0, pos, camX)
  {
    if i == |es| {
      assert es[..i] == es && es[i..] == [];
    }
  }

  /** One step of the prune loop over a record behind the camera: erasing it
      and advancing skips its successor, as Kept and Pruned describe. */
  lemma PruneStepErase(es: seq<Entity>, d: seq<BodyId>, i: nat, pos: seq<Vec>, camX: real,
                       es0: seq<Entity>, d0: seq<BodyId>)
    requires PruneInv(es, d, i, pos, camX, es0, d0) && i < |es| && Behind(es[i], pos, camX)
    ensures PruneInv(es[..i] + es[i + 1..], d + [es[i].body], i + 1, pos, camX, es0, d0)
  {
    var s := es[i..];
    var r := es[..i] + es[i + 1..];
    var b := es[i].body;
    assert s[0] == es[i];
    LocatedDrop(es, pos, i);
    if |s| > 1 {
      assert r[..i + 1] == es[..i] + [s[1]];
      assert r[i + 1..] == s[2..];
      assert Kept(s, pos, camX) == [s[1]] + Kept(s[2..], pos, camX);
      ConcatAssoc(es[..i], [s[1]], Kept(s[2..], pos, camX));
      assert Pruned(s, pos, camX) == [b] + Pruned(s[2..], pos, camX);
      ConcatAssoc(d, [b], Pruned(s[2..], pos, camX));
    } else {
      assert r == es[..i];
      assert Kept(s, pos, camX) == [] && Pruned(s, pos, camX) == [b];
      assert es[..i] + [] == es[..i];
    }
  }

  lemma ConcatAssoc<T>(a: seq<T>, b: seq<T>, c: seq<T>)
    ensures a + b + c == a + (b + c)
  {
  }

  /** Erasing one record keeps every remaining record located. */
  lemma LocatedDrop(es: seq<Entity>, pos: seq<Vec>, i: nat)
    requires Located(es, pos) && i < |es|
    ensures Located(es[..i] + es[i + 1..], pos)
  {
    var r := es[..i] + es[i + 1..];
    forall k | 0 <= k < |r| ensures r[k].body < |pos| {
      if k < i {
        assert r[k] == es[k];
      } else {
        assert r[k] == es[k + 1];
      }
    }
  }

  /** Erasing a record behind the camera keeps the registry's invariant and
      the prune loop's. */
  lemma PruneErase(es: seq<Entity>, d: seq<BodyId>, i: nat, pos: seq<Vec>, c: BodyId, camX: real,
                   es0: seq<Entity>, d0: seq<BodyId>)
    requires Registered(es, pos, d) && Tracks(es, c)
    requires PruneInv(es, d, i, pos, camX, es0, d0) && i < |es| && Behind(es[i], pos, camX)
    ensures Registered(es[..i] + es[i + 1..], pos, d + [es[i].body])
    ensures Tracks(es[..i] + es[i + 1..], c)
    ensures PruneInv(es[..i] + es[i + 1..], d + [es[i].body], i + 1, pos, camX, es0, d0)
  {
    EraseKeeps(es, pos, d, c, i);
    PruneStepErase(es, d, i, pos, camX, es0, d0);
  }

  /** One step of the prune loop over a record it keeps. */
  lemma PruneStepKeep(es: seq<Entity>, d: seq<BodyId>, i: nat, pos: seq<Vec>, camX: real,
                      es0: seq<Entity>, d0: seq<BodyId>)
    requires PruneInv(es, d, i, pos, camX, es0, d0) && i < |es| && !Behind(es[i], pos, camX)
    ensures PruneInv(es, d, i + 1, pos, camX, es0, d0)
  {
    var s := es[i..];
    assert s[0] == es[i];
    assert es[..i + 1] == es[..i] + [s[0]];
    assert es[i + 1..] == s[1..];
  }

  /** Completes createGround's bookkeeping: the ground body was created before
      the staircase, its record goes after it. */
  lemma FinishGround(e0: seq<Entity>, e1: seq<Entity>, e2: seq<Entity>, p0: seq<Vec>, p1: seq<Vec>,
                     stairs: seq<Placement>, g: Placement, b: BodyId)
    requires |p0| == b && b < |p1| && p1[b] == g.at
    requires Appends(e0, e1, p0 + [g.at], p1, stairs)
    requires e2 == e1 + [Entity(g.kind, b, g.width, g.height)]
    ensures Appends(e0, e2, p0, p1, stairs + [g])
  {
    assert p1[..|p0|] == p1[..|p0| + 1][..|p0|];
    assert e2[..|e0|] == e1[..|e0|];
    var a := e1[|e0|..];
    var t := e2[|e0|..];
    assert t == a + [Entity(g.kind, b, g.width, g.height)];
    forall i, j | 0 <= i < j < |t| ensures t[i].body != t[j].body {
      if j < |a| {
        assert t[i] == a[i] && t[j] == a[j];
      } else {
        assert t[i] == a[i] && b < a[i].body;
      }
    }
    forall i | 0 <= i < |t| ensures Realises(t[i], (stairs + [g])[i], p1) && |p0| <= t[i].body {
      if i < |a| {
        assert t[i] == a[i] && (stairs + [g])[i] == stairs[i];
      }
    }
  }
}
