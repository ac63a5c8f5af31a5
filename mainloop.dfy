/** The game loop of `main`: the window's events, pruning behind the camera,
    streaming obstacles ahead of it, the closing scene, the win and loss
    checks, the camera's drift and the physics step. The window, the clock,
    the random device and the physics engine are inputs: each frame brings
    its events, its random draws, the character's position after the step
    and the contacts the step reports. */
module MainLoop {
  import opened Registry
  import opened Layout
  import opened Engine
  import Converter

  datatype Key = Up | Down | OtherKey

  datatype Event = Closed | KeyPressed(key: Key) | KeyReleased(key: Key) | OtherEvent

  /** The text object's content: nothing yet, the running score, or one of
      the two endings. */
  datatype Banner = NoText | ScoreShown(score: nat) | YouLost | YouWon(final: nat)

  /** What the host supplies for one frame. */
  datatype Frame = Frame(
    events: seq<Event>,
    draws: seq<Draw>,
    characterAt: Vec,
    contacts: seq<(BodyId, BodyId)>,
    victoryPlaying: bool,
    coinSoundPlaying: bool)

  /** The state the event loop works on. */
  datatype Controls = Controls(open: bool, moveRight: bool, isReady: bool, velocity: Vec, gravity: Vec)

  /** Arrow presses and releases; other keys and events leave the direction alone. */
  predicate IsArrow(e: Event)
  {
    (e.KeyPressed? || e.KeyReleased?) && e.key != OtherKey
  }

  predicate IsPress(e: Event)
  {
    e.KeyPressed? && e.key != OtherKey
  }

  /** The velocity an arrow press gives the character. */
  function PressVelocity(k: Key): Vec
  {
    if k == Up then Vec(0.0, 10.0) else Vec(0.0, -10.0)
  }

  /** The gravity an arrow press gives the world. */
  function PressGravity(k: Key): Vec
  {
    if k == Up then Vec(0.0, 200.0) else Vec(0.0, -200.0)
  }

  /** One polled event. A closed window delivers no further events. */
  function React(c: Controls, e: Event): Controls
  {
    if !c.open then c
    else match e
      case Closed => c.(open := false)
      case KeyPressed(k) =>
        if k == Up then c.(moveRight := false, isReady := true, velocity := PressVelocity(Up), gravity := PressGravity(Up))
        else if k == Down then c.(moveRight := false, velocity := PressVelocity(Down), gravity := PressGravity(Down))
        else c
      case KeyReleased(k) => if k == Up || k == Down then c.(moveRight := true) else c
      case OtherEvent => c
  }

  /** All the events polled in one frame, in order. */
  function ReactAll(c: Controls, es: seq<Event>): Controls
  {
    if es == [] then c else React(ReactAll(c, es[..|es| - 1]), es[|es| - 1])
  }

  /** The window stays open exactly when it was open and no event closed it. */
  lemma {:induction false} ReactAllOpen(c: Controls, es: seq<Event>)
    ensures ReactAll(c, es).open <==> c.open && Closed !in es
  {
    if es != [] {
      var init := es[..|es| - 1];
      ReactAllOpen(c, init);
      assert es == init + [es[|es| - 1]];
    }
  }

  /** The player is ready once Up has been pressed while the window was
      open, and stays ready. */
  lemma {:induction false} ReactAllReady(c: Controls, es: seq<Event>)
    ensures ReactAll(c, es).isReady <==>
      c.isReady || (c.open && exists i :: 0 <= i < |es| && es[i] == KeyPressed(Up) && Closed !in es[..i])
  {
    if es != [] {
      var init, e := es[..|es| - 1], es[|es| - 1];
      ReactAllReady(c, init);
      ReactAllOpen(c, init);
      if exists i :: 0 <= i < |es| && es[i] == KeyPressed(Up) && Closed !in es[..i] {
        var i :| 0 <= i < |es| && es[i] == KeyPressed(Up) && Closed !in es[..i];
        if i < |init| {
          assert init[i] == es[i] && init[..i] == es[..i];
        } else {
          assert es[..i] == init;
        }
      }
      if exists i :: 0 <= i < |init| && init[i] == KeyPressed(Up) && Closed !in init[..i] {
        var i :| 0 <= i < |init| && init[i] == KeyPressed(Up) && Closed !in init[..i];
        assert es[i] == init[i] && es[..i] == init[..i];
      }
      if e == KeyPressed(Up) && Closed !in init {
        assert es[..|init|] == init;
      }
    }
  }

  /** Events after the one that closes the window change nothing. */
  lemma {:induction false} ReactAllStopsAtClose(c: Controls, es: seq<Event>, k: nat)
    requires k < |es| && es[k] == Closed
    ensures ReactAll(c, es) == ReactAll(c, es[..k + 1])
  {
    if k < |es| - 1 {
      var init := es[..|es| - 1];
      assert init[..k + 1] == es[..k + 1];
      ReactAllStopsAtClose(c, init, k);
      ReactAllOpen(c, es[..k + 1]);
    } else {
      assert es[..k + 1] == es;
    }
  }

  /** Without arrow events the direction, velocity and gravity stay as they were. */
  lemma {:induction false} ReactAllQuiet(c: Controls, es: seq<Event>)
    requires forall i :: 0 <= i < |es| ==> !IsArrow(es[i])
    ensures ReactAll(c, es).moveRight == c.moveRight
    ensures ReactAll(c, es).velocity == c.velocity && ReactAll(c, es).gravity == c.gravity
  {
    if es != [] {
      ReactAllQuiet(c, es[..|es| - 1]);
    }
  }

  /** The character moves right again exactly when the last arrow event was
      a release. */
  lemma {:induction false} ReactAllLastArrow(c: Controls, es: seq<Event>, k: nat)
    requires k < |es| && IsArrow(es[k]) && forall j :: k < j < |es| ==> !IsArrow(es[j])
    requires c.open && Closed !in es[..k]
    ensures ReactAll(c, es).moveRight <==> es[k].KeyReleased?
  {
    var init := es[..|es| - 1];
    if k < |es| - 1 {
      assert init[..k] == es[..k];
      ReactAllLastArrow(c, init, k);
    } else {
      assert init == es[..k];
      ReactAllOpen(c, init);
    }
  }

  /** Velocity and gravity are those of the last arrow press. */
  lemma {:induction false} ReactAllLastPress(c: Controls, es: seq<Event>, k: nat)
    requires k < |es| && IsPress(es[k]) && forall j :: k < j < |es| ==> !IsPress(es[j])
    requires c.open && Closed !in es[..k]
    ensures ReactAll(c, es).velocity == PressVelocity(es[k].key)
    ensures ReactAll(c, es).gravity == PressGravity(es[k].key)
  {
    var init := es[..|es| - 1];
    if k < |es| - 1 {
      assert init[..k] == es[..k];
      ReactAllLastPress(c, init, k);
    } else {
      assert init == es[..k];
      ReactAllOpen(c, init);
    }
  }

  /** The largest x over the records' bodies, or 0 when all are at or left of 0. */
  ghost predicate IsLargestX(r: real, s: seq<Entity>, pos: seq<Vec>)
  {
    Located(s, pos) && r >= 0.0
    && (forall i :: 0 <= i < |s| ==> pos[s[i].body].x <= r)
    && (r == 0.0 || exists i :: 0 <= i < |s| && pos[s[i].body].x == r)
  }

  /** More obstacles are streamed when the rightmost body is at most 720
      pixels right of the camera and the character has not reached x = 500. */
  predicate StreamDue(largest: real, camX: real, charX: real)
  {
    Converter.MeterToPixel(largest) - camX <= 720.0 && charX < 500.0
  }

  /** What a frame adds ahead of the character: a batch, the ending once, or nothing. */
  function Scenery(largest: real, camX: real, charX: real, nearEnding: bool, draws: seq<Draw>): seq<Placement>
  {
    if StreamDue(largest, camX, charX) then Batch(largest, draws)
    else if charX >= 500.0 && !nearEnding then Ending(largest)
    else []
  }

  /** The loss test: the character left the band between the grounds, or fell
      more than half a screen plus two metres behind the camera. */
  predicate LostAt(charX: real, charY: real, camX: real, screenWidth: nat)
  {
    charY >= 30.0 || charY <= 0.0
    || Converter.PixelToMeter(camX) - charX > Converter.PixelToMeter(screenWidth as real / 2.0) + 2.0
  }

  /** The banner a frame leaves: the running score while playing, otherwise
      the last verdict written this frame, or the previous banner. */
  function BannerAfter(prev: Banner, score: nat, lostNow: bool, wonNow: bool, isWon: bool, isLost: bool): Banner
  {
    if !isWon && !isLost then ScoreShown(score)
    else if wonNow then YouWon(score)
    else if lostNow then YouLost
    else prev
  }

  /** The number of frames the loop runs: up to and including the first
      frame whose events close the window. */
  function FramesRun(frames: seq<Frame>): nat
  {
    if frames == [] then 0
    else if Closed in frames[0].events then 1
    else 1 + FramesRun(frames[1..])
  }

  /** The loop runs no more frames than it is given, stops early only at a
      frame that closes the window, and no earlier frame closes it. */
  lemma {:induction false} FramesRunBounds(frames: seq<Frame>)
    ensures FramesRun(frames) <= |frames|
    ensures FramesRun(frames) < |frames| ==> Closed in frames[FramesRun(frames) - 1].events
    ensures forall k :: 0 <= k < FramesRun(frames) - 1 ==> Closed !in frames[k].events
  {
    if frames != [] && Closed !in frames[0].events {
      FramesRunBounds(frames[1..]);
      forall k | 0 <= k < FramesRun(frames) - 1 ensures Closed !in frames[k].events {
        if k > 0 {
          assert frames[k] == frames[1..][k - 1];
        }
      }
      if FramesRun(frames) < |frames| {
        assert frames[FramesRun(frames) - 1] == frames[1..][FramesRun(frames[1..]) - 1];
      }
    }
  }

  /** One frame of the count: a closing frame ends it, any other adds one. */
  lemma FramesRunUnfold(frames: seq<Frame>, k: nat)
    requires k < |frames|
    ensures FramesRun(frames[k..]) == if Closed in frames[k].events then 1 else 1 + FramesRun(frames[k + 1..])
  {
    assert frames[k..][0] == frames[k];
    assert frames[k..][1..] == frames[k + 1..];
  }

  /** The records left after the physics step's contacts: the last coin hit,
      if any, is erased. */
  ghost function Collected(es: seq<Entity>, contacts: seq<(BodyId, BodyId)>): seq<Entity>
  {
    var p := PendingAfter(es, contacts, None);
    if p.Some? then RemoveFirst(es, p.value) else es
  }

  /** The body the physics step destroys: the last coin hit, if any. */
  ghost function CollectedBody(es: seq<Entity>, contacts: seq<(BodyId, BodyId)>): seq<BodyId>
  {
    var p := PendingAfter(es, contacts, None);
    if p.Some? then [p.value] else []
  }

  /** The coin sound starts when a coin is collected and it is not already playing. */
  function CoinSounds(es: seq<Entity>, contacts: seq<(BodyId, BodyId)>, coinSoundPlaying: bool): nat
  {
    if PendingAfter(es, contacts, None).Some? && !coinSoundPlaying then 1 else 0
  }

  class Session {
    const game: Game
    var screenWidth: nat
    var screenHeight: nat
    /** The view's centre, in pixels. */
    var camX: real
    var camY: real
    var open: bool
    var moveRight: bool
    var nearEnding: bool
    var isReady: bool
    var isWon: bool
    var isLost: bool
    var banner: Banner
    /** Number of times the victory sound was started. */
    var victoryPlays: nat
    /** Number of closing scenes built. */
    ghost var endings: nat
    /** The rightmost x found by the last frame. */
    ghost var largest: real
    /** The records and positions the last frame handed to the physics step. */
    ghost var staged: seq<Entity>
    ghost var stagedPos: seq<Vec>

    ghost predicate Valid()
      reads this`victoryPlays, this`isWon, this`endings, this`nearEnding
      reads game`entities, game`pos, game`destroyed, game`character, game`pending
    {
      game.Valid() && game.pending == None
      && victoryPlays <= 1 && (victoryPlays == 1 ==> isWon)
      && endings <= 1 && (endings == 1 ==> nearEnding)
    }

    function Snapshot(): Controls
      reads this`open, this`moveRight, this`isReady, game`velocity, game`gravity
    {
      Controls(open, moveRight, isReady, game.velocity, game.gravity)
    }

    /** The set-up part of main: the world, the view and the flags. */
    constructor (screenWidth: nat, screenHeight: nat)
      ensures Valid()
      ensures fresh(game) && Appends([], game.entities, [], game.pos, InitialLayout())
      ensures game.character == game.entities[7].body
      ensures camX == (screenWidth / 2) as real - 450.0
      ensures camY == (screenHeight / 2) as real - Converter.MeterToPixel(GroundHeight) / 2.0 + 200.0
      ensures open && moveRight && !nearEnding && !isReady && !isWon && !isLost
      ensures banner == NoText && victoryPlays == 0 && endings == 0
      ensures game.score == 0 && game.coinSoundPlays == 0 && game.destroyed == []
      ensures this.screenWidth == screenWidth && this.screenHeight == screenHeight
      ensures game.velocity == Vec(0.0, 0.0) && game.gravity == Vec(0.0, -10.0)
    {
      game := new Game();
      this.screenWidth := screenWidth;
      this.screenHeight := screenHeight;
      camX := (screenWidth / 2) as real + -450.0;
      camY := (screenHeight / 2) as real + (-(Converter.MeterToPixel(GroundHeight) / 2.0) + 200.0);
      open, moveRight, nearEnding, isReady, isWon, isLost := true, true, false, false, false, false;
      banner := NoText;
      victoryPlays := 0;
      endings := 0;
      new;
    }

    /** The event loop of one frame; once the window is closed, polling
        delivers nothing more. */
    method HandleEvents(events: seq<Event>)
      modifies this`open, this`moveRight, this`isReady, game`velocity, game`gravity
      ensures Snapshot() == ReactAll(old(Snapshot()), events)
    {
      for i := 0 to |events|
        invariant Snapshot() == ReactAll(old(Snapshot()), events[..i])
      {
        assert events[..i + 1][..i] == events[..i];
        if open {
          match events[i]
          case Closed =>
            open := false;
          case KeyPressed(k) =>
            if k == Up {
              moveRight := false;
              isReady := true;
              game.velocity := Vec(0.0, 10.0);
              game.gravity := Vec(0.0, 200.0);
            } else if k == Down {
              moveRight := false;
              game.velocity := Vec(0.0, -10.0);
              game.gravity := Vec(0.0, -200.0);
            }
          case KeyReleased(k) =>
            if k == Up {
              moveRight := true;
            } else if k == Down {
              moveRight := true;
            }
          case OtherEvent =>
        }
      }
      assert events[..|events|] == events;
    }

    /** Pruning, the rightmost x, and streaming or the closing scene. */
    method StageScenery(draws: seq<Draw>)
      requires Valid() && |draws| == BatchIterations
      modifies game`entities, game`pos, game`destroyed, this`nearEnding, this`endings, this`largest
      modifies this`staged, this`stagedPos
      ensures Valid()
      ensures Located(old(game.entities), old(game.pos))
      ensures IsLargestX(largest, Kept(old(game.entities), old(game.pos), camX), old(game.pos))
      ensures Appends(Kept(old(game.entities), old(game.pos), camX), game.entities, old(game.pos), game.pos,
        Scenery(largest, camX, old(game.pos)[game.character].x, old(nearEnding), draws))
      ensures game.destroyed == old(game.destroyed) + Pruned(old(game.entities), old(game.pos), camX)
      ensures game.pos[game.character] == old(game.pos)[game.character]
      ensures nearEnding == (old(nearEnding) || (!StreamDue(largest, camX, old(game.pos)[game.character].x)
        && old(game.pos)[game.character].x >= 500.0))
      ensures endings == old(endings) + (if !old(nearEnding) && nearEnding then 1 else 0)
      ensures staged == game.entities && stagedPos == game.pos
    {
      game.PruneBehind(camX);
      var largestPosX := LargestPosX(game.entities, game.pos);
      largest := largestPosX;
      AddScenery(largestPosX, game.pos[game.character].x, draws);
      staged, stagedPos := game.entities, game.pos;
    }

    /** Streams a batch while the rightmost body is near the camera and the
        character is short of x = 500, otherwise adds the closing scene once. */
    method AddScenery(largestPosX: real, charX: real, draws: seq<Draw>)
      requires Valid() && |draws| == BatchIterations
      modifies game`entities, game`pos, this`nearEnding, this`endings
      ensures Valid()
      ensures Appends(old(game.entities), game.entities, old(game.pos), game.pos,
        Scenery(largestPosX, camX, charX, old(nearEnding), draws))
      ensures nearEnding == (old(nearEnding) || (!StreamDue(largestPosX, camX, charX) && charX >= 500.0))
      ensures endings == old(endings) + (if !old(nearEnding) && nearEnding then 1 else 0)
      ensures game.pos[game.character] == old(game.pos)[game.character]
    {
      if Converter.MeterToPixel(largestPosX) - camX <= 720.0 && charX < 500.0 {
        game.StreamBatch(largestPosX, draws);
      } else if charX >= 500.0 && !nearEnding {
        nearEnding := true;
        endings := endings + 1;
        game.CreateEnding(largestPosX);
      } else {
        AppendsNothing(game.entities, game.pos);
      }
      assert game.pos[..|old(game.pos)|] == old(game.pos);
    }

    /** Keeps the character moving right while the game runs, and stops
        everything once it is over. */
    method Drift()
      modifies game`velocity, game`gravity
      ensures game.velocity == if moveRight && !isWon && !isLost then Vec(10.0, 0.0)
        else if isWon || isLost then Vec(0.0, 0.0) else old(game.velocity)
      ensures game.gravity == if !(moveRight && !isWon && !isLost) && (isWon || isLost) then Vec(0.0, -10.0)
        else old(game.gravity)
    {
      if moveRight && !isWon && !isLost {
        game.velocity := Vec(10.0, 0.0);
      } else if isWon || isLost {
        game.velocity := Vec(0.0, 0.0);
        game.gravity := Vec(0.0, -10.0);
      }
    }

    /** The loss and win checks, the camera's drift and the banner, all on the
        character's position before this frame's physics step. */
    method Judge(charX: real, charY: real, victoryPlaying: bool)
      requires Valid()
      modifies this`isLost, this`isWon, this`victoryPlays, this`camX, this`banner
      ensures Valid()
      ensures isLost == (old(isLost) || LostAt(charX, charY, old(camX), screenWidth))
      ensures isWon == (old(isWon) || charX >= 574.0)
      ensures victoryPlays == old(victoryPlays) + (if charX >= 574.0 && !victoryPlaying && !old(isWon) then 1 else 0)
      ensures camX == old(camX) + (if isReady && !isWon && !isLost then 4.3 else 0.0)
      ensures banner == BannerAfter(old(banner), game.score, LostAt(charX, charY, old(camX), screenWidth),
        charX >= 574.0, isWon, isLost)
    {
      CheckVerdicts(charX, charY, victoryPlaying);
      FollowCamera();
    }

    /** The two loss tests, then the win test with its victory sound. */
    method CheckVerdicts(charX: real, charY: real, victoryPlaying: bool)
      requires Valid()
      modifies this`isLost, this`isWon, this`victoryPlays, this`banner
      ensures Valid()
      ensures isLost == (old(isLost) || LostAt(charX, charY, camX, screenWidth))
      ensures isWon == (old(isWon) || charX >= 574.0)
      ensures victoryPlays == old(victoryPlays) + (if charX >= 574.0 && !victoryPlaying && !old(isWon) then 1 else 0)
      ensures banner == if charX >= 574.0 then YouWon(game.score)
        else if LostAt(charX, charY, camX, screenWidth) then YouLost else old(banner)
    {
      if charY >= 30.0 || charY <= 0.0 {
        banner := YouLost;
        isLost := true;
      }
      if Converter.PixelToMeter(camX) - charX > Converter.PixelToMeter(screenWidth as real / 2.0) + 2.0 {
        banner := YouLost;
        isLost := true;
      }
      if charX >= 574.0 {
        banner := YouWon(game.score);
        if !victoryPlaying && !isWon {
          victoryPlays := victoryPlays + 1;
        }
        isWon := true;
      }
    }

    /** The camera's drift while the game runs, and the running score. */
    method FollowCamera()
      modifies this`camX, this`banner
      ensures camX == old(camX) + (if isReady && !isWon && !isLost then 4.3 else 0.0)
      ensures banner == if !isWon && !isLost then ScoreShown(game.score) else old(banner)
    {
      if isReady && !isWon && !isLost {
        camX := camX + 4.3;
      }
      if !isWon && !isLost {
        banner := ScoreShown(game.score);
      }
    }

    /** One pass of main's loop. */
    method Step(f: Frame)
      requires Valid() && |f.draws| == BatchIterations
      modifies this`open, this`moveRight, this`isReady, this`nearEnding, this`endings, this`largest, this`staged, this`stagedPos
      modifies this`isLost, this`isWon, this`victoryPlays, this`camX, this`banner
      modifies game`velocity, game`gravity, game`entities, game`pos, game`destroyed
      modifies game`score, game`pending, game`coinSoundPlays
      ensures Valid()
      ensures old(nearEnding) ==> nearEnding && endings == old(endings)
      ensures var c := ReactAll(old(Snapshot()), f.events);
        open == c.open && moveRight == c.moveRight && isReady == c.isReady
      ensures var charX := old(game.pos)[old(game.character)].x;
        var charY := old(game.pos)[old(game.character)].y;
        isLost == (old(isLost) || LostAt(charX, charY, old(camX), screenWidth))
        && isWon == (old(isWon) || charX >= 574.0)
        && victoryPlays == old(victoryPlays) + (if charX >= 574.0 && !f.victoryPlaying && !old(isWon) then 1 else 0)
        && camX == old(camX) + (if isReady && !isWon && !isLost then 4.3 else 0.0)
        && banner == BannerAfter(old(banner), old(game.score), LostAt(charX, charY, old(camX), screenWidth),
             charX >= 574.0, isWon, isLost)
      ensures var c := ReactAll(old(Snapshot()), f.events);
        game.velocity == (if c.moveRight && !old(isWon) && !old(isLost) then Vec(10.0, 0.0)
          else if old(isWon) || old(isLost) then Vec(0.0, 0.0) else c.velocity)
        && game.gravity == (if !(c.moveRight && !old(isWon) && !old(isLost)) && (old(isWon) || old(isLost)) then Vec(0.0, -10.0)
          else c.gravity)
      ensures game.character == old(game.character) && screenWidth == old(screenWidth)
      ensures |stagedPos| == |game.pos| && game.pos == stagedPos[game.character := f.characterAt]
      ensures game.score == old(game.score) + ContactHits(staged, f.contacts)
      ensures game.entities == Collected(staged, f.contacts)
      ensures game.coinSoundPlays == old(game.coinSoundPlays) + CoinSounds(staged, f.contacts, f.coinSoundPlaying)
      ensures game.destroyed == old(game.destroyed) + Pruned(old(game.entities), old(game.pos), old(camX))
        + CollectedBody(staged, f.contacts)
    {
      Prelude(f);
      Physics(f);
    }

    /** Everything of a frame before the physics step. */
    method Prelude(f: Frame)
      requires Valid() && |f.draws| == BatchIterations
      modifies this`open, this`moveRight, this`isReady, this`nearEnding, this`endings, this`largest, this`staged, this`stagedPos
      modifies this`isLost, this`isWon, this`victoryPlays, this`camX, this`banner
      modifies game`velocity, game`gravity, game`entities, game`pos, game`destroyed
      ensures Valid()
      ensures old(nearEnding) ==> nearEnding && endings == old(endings)
      ensures open == ReactAll(old(Snapshot()), f.events).open
      ensures moveRight == ReactAll(old(Snapshot()), f.events).moveRight
      ensures isReady == ReactAll(old(Snapshot()), f.events).isReady
      ensures isLost == (old(isLost) || LostAt(old(game.pos)[old(game.character)].x, old(game.pos)[old(game.character)].y, old(camX), screenWidth))
      ensures isWon == (old(isWon) || old(game.pos)[old(game.character)].x >= 574.0)
      ensures victoryPlays == old(victoryPlays)
        + (if old(game.pos)[old(game.character)].x >= 574.0 && !f.victoryPlaying && !old(isWon) then 1 else 0)
      ensures camX == old(camX) + (if isReady && !isWon && !isLost then 4.3 else 0.0)
      ensures banner == BannerAfter(old(banner), old(game.score),
        LostAt(old(game.pos)[old(game.character)].x, old(game.pos)[old(game.character)].y, old(camX), screenWidth),
        old(game.pos)[old(game.character)].x >= 574.0, isWon, isLost)
      ensures var c := ReactAll(old(Snapshot()), f.events);
        game.velocity == (if c.moveRight && !old(isWon) && !old(isLost) then Vec(10.0, 0.0)
          else if old(isWon) || old(isLost) then Vec(0.0, 0.0) else c.velocity)
      ensures var c := ReactAll(old(Snapshot()), f.events);
        game.gravity == (if !(c.moveRight && !old(isWon) && !old(isLost)) && (old(isWon) || old(isLost)) then Vec(0.0, -10.0)
          else c.gravity)
      ensures game.character == old(game.character) && screenWidth == old(screenWidth)
      ensures game.pos == stagedPos && game.entities == staged
      ensures game.score == old(game.score) && game.coinSoundPlays == old(game.coinSoundPlays)
      ensures game.destroyed == old(game.destroyed) + Pruned(old(game.entities), old(game.pos), old(camX))
    {
      var charX := game.pos[game.character].x;
      var charY := game.pos[game.character].y;
      Survey(f);
      Settle(charX, charY, f.victoryPlaying);
    }

    /** The events, the prune, the rightmost x and the new scenery; the result
        is what the physics step will see. */
    method Survey(f: Frame)
      requires Valid() && |f.draws| == BatchIterations
      modifies this`open, this`moveRight, this`isReady, this`nearEnding, this`endings, this`largest, this`staged, this`stagedPos
      modifies game`velocity, game`gravity, game`entities, game`pos, game`destroyed
      ensures Valid()
      ensures old(nearEnding) ==> nearEnding && endings == old(endings)
      ensures Snapshot() == ReactAll(old(Snapshot()), f.events)
      ensures game.pos == stagedPos && game.entities == staged
      ensures game.pos[game.character] == old(game.pos)[game.character]
      ensures game.destroyed == old(game.destroyed) + Pruned(old(game.entities), old(game.pos), camX)
    {
      HandleEvents(f.events);
      StageScenery(f.draws);
    }

    /** The drift of the character, then the verdicts, the camera and the banner. */
    method Settle(charX: real, charY: real, victoryPlaying: bool)
      requires Valid()
      modifies this`isLost, this`isWon, this`victoryPlays, this`camX, this`banner, game`velocity, game`gravity
      ensures Valid()
      ensures isLost == (old(isLost) || LostAt(charX, charY, old(camX), screenWidth))
      ensures isWon == (old(isWon) || charX >= 574.0)
      ensures victoryPlays == old(victoryPlays) + (if charX >= 574.0 && !victoryPlaying && !old(isWon) then 1 else 0)
      ensures camX == old(camX) + (if isReady && !isWon && !isLost then 4.3 else 0.0)
      ensures banner == BannerAfter(old(banner), game.score, LostAt(charX, charY, old(camX), screenWidth),
        charX >= 574.0, isWon, isLost)
      ensures game.velocity == if moveRight && !old(isWon) && !old(isLost) then Vec(10.0, 0.0)
        else if old(isWon) || old(isLost) then Vec(0.0, 0.0) else old(game.velocity)
      ensures game.gravity == if !(moveRight && !old(isWon) && !old(isLost)) && (old(isWon) || old(isLost)) then Vec(0.0, -10.0)
        else old(game.gravity)
    {
      Drift();
      Judge(charX, charY, victoryPlaying);
    }

    /** The physics step of game.update: the character moves, contacts add to
        the score, and the last coin hit is erased. */
    method Physics(f: Frame)
      requires Valid()
      modifies game`pos, game`score, game`pending, game`entities, game`destroyed, game`coinSoundPlays
      ensures Valid()
      ensures game.pos == old(game.pos)[game.character := f.characterAt]
      ensures game.score == old(game.score) + ContactHits(old(game.entities), f.contacts)
      ensures game.entities == Collected(old(game.entities), f.contacts)
      ensures game.coinSoundPlays == old(game.coinSoundPlays) + CoinSounds(old(game.entities), f.contacts, f.coinSoundPlaying)
      ensures game.destroyed == old(game.destroyed) + CollectedBody(old(game.entities), f.contacts)
    {
      PendingAfterIsCoin(game.entities, f.contacts);
      game.Update(f.characterAt, f.contacts, f.coinSoundPlaying);
    }

    /** One frame as the loop sees it: the window closes exactly when an
        event of the frame closes it, and the verdicts, the ending and the
        score never go back. */
    method Tick(f: Frame)
      requires Valid() && open && |f.draws| == BatchIterations
      modifies this, game
      ensures Valid()
      ensures open <==> Closed !in f.events
      ensures old(isWon) ==> isWon
      ensures old(isLost) ==> isLost
      ensures old(nearEnding) ==> nearEnding && endings == old(endings)
      ensures game.score >= old(game.score)
      ensures old(game.destroyed) <= game.destroyed
    {
      ReactAllOpen(Snapshot(), f.events);
      Step(f);
    }

    /** main's loop over the frames the host supplies, until one of them
        closes the window. */
    method Run(frames: seq<Frame>) returns (played: nat)
      requires Valid() && open
      requires forall k :: 0 <= k < |frames| ==> |frames[k].draws| == BatchIterations
      modifies this, game
      ensures Valid()
      ensures played == FramesRun(frames)
      ensures open ==> played == |frames|
      ensures played <= |frames|
      ensures !open ==> 0 < played && Closed in frames[played - 1].events
      ensures old(isWon) ==> isWon
      ensures old(isLost) ==> isLost
      ensures old(nearEnding) ==> nearEnding && endings == old(endings)
      ensures endings <= 1 && (endings == 1 ==> nearEnding)
      ensures game.score >= old(game.score)
      ensures old(game.destroyed) <= game.destroyed
    {
      played := 0;
      while open && played < |frames|
        invariant Valid()
        invariant played <= |frames|
        invariant open ==> FramesRun(frames) == played + FramesRun(frames[played..])
        invariant !open ==> 0 < played && FramesRun(frames) == played && Closed in frames[played - 1].events
        invariant old(isWon) ==> isWon
        invariant old(isLost) ==> isLost
        invariant old(nearEnding) ==> nearEnding && endings == old(endings)
        invariant game.score >= old(game.score)
        invariant old(game.destroyed) <= game.destroyed
        decreases |frames| - played
      {
        var f := frames[played];
        FramesRunUnfold(frames, played);
        Tick(f);
        played := played + 1;
      }
      if open {
        assert frames[played..] == [];
      }
    }
  }
}
