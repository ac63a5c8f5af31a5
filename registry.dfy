/** The entity registry (`entityList`): records pairing a physics body with its
    type tag and size, and the pure descriptions of the scans the game runs over
    it — the coin-contact scan, the pending-coin removal, the behind-camera prune
    and the search for the rightmost record. */
module Registry {
  import Converter

  /** An opaque handle for a physics body. Handles are handed out consecutively,
      so a body's handle doubles as its index into the table of positions. */
  type BodyId = nat

  datatype EntityType = Ground | Character | StoneBlock | Coin

  datatype Vec = Vec(x: real, y: real)

  /** One registry record: type tag, body handle, width and height in metres.
      The back-reference to the single physics world is left implicit. */
  datatype Entity = Entity(kind: EntityType, body: BodyId, width: real, height: real)

  datatype Option<T> = None | Some(value: T)

  /** No two records share a body handle. */
  ghost predicate DistinctBodies(s: seq<Entity>)
  {
    forall i, j :: 0 <= i < j < |s| ==> s[i].body != s[j].body
  }

  ghost predicate HasBody(s: seq<Entity>, b: BodyId)
  {
    exists i :: 0 <= i < |s| && s[i].body == b
  }

  /** Every record's body has a position. */
  ghost predicate Located(s: seq<Entity>, pos: seq<Vec>)
  {
    forall i :: 0 <= i < |s| ==> s[i].body < |pos|
  }

  /** `r` is `s` with some records left out and the rest in their original order. */
  ghost predicate Subsequence(r: seq<Entity>, s: seq<Entity>)
    decreases |s|
  {
    r == [] || (s != [] && ((r[0] == s[0] && Subsequence(r[1..], s[1..])) || Subsequence(r, s[1..])))
  }

  lemma {:induction false} DistinctCons(x: Entity, s: seq<Entity>)
    requires DistinctBodies(s)
    requires forall e :: e in s ==> e.body != x.body
    ensures DistinctBodies([x] + s)
  {
    var t := [x] + s;
    forall i, j | 0 <= i < j < |t|
      ensures t[i].body != t[j].body
    {
      if i == 0 {
        assert t[j] == s[j - 1];
      } else {
        assert t[i] == s[i - 1] && t[j] == s[j - 1];
      }
    }
  }

  // ---------------------------------------------------------------------------
  // Coin contacts (ContactListener::BeginContact)

  /** The record is a coin whose body is one of the two bodies in contact. */
  predicate TouchesCoin(e: Entity, a: BodyId, b: BodyId)
  {
    (e.body == a || e.body == b) && e.kind == Coin
  }

  /** How many records of `s` the contact scan counts as collected coins. */
  function CoinHits(s: seq<Entity>, a: BodyId, b: BodyId): nat
  {
    if s == [] then 0
    else CoinHits(s[..|s| - 1], a, b) + (if TouchesCoin(s[|s| - 1], a, b) then 1 else 0)
  }

  /** The body the contact scan leaves in the pending slot: that of the last
      matching coin, or none when no coin matches. */
  function LastCoinHit(s: seq<Entity>, a: BodyId, b: BodyId): Option<BodyId>
  {
    if s == [] then None
    else if TouchesCoin(s[|s| - 1], a, b) then Some(s[|s| - 1].body)
    else LastCoinHit(s[..|s| - 1], a, b)
  }

  function CoinBodies(s: seq<Entity>): set<BodyId>
  {
    set i | 0 <= i < |s| && s[i].kind == Coin :: s[i].body
  }

  /** When handles are unique, the scan counts each coin among the two
      touching bodies exactly once. */
  lemma {:induction false} CoinHitsCountsTouchedCoins(s: seq<Entity>, a: BodyId, b: BodyId)
    requires DistinctBodies(s)
    ensures CoinHits(s, a, b) == |CoinBodies(s) * {a, b}|
  {
    if s != [] {
      var p, e := s[..|s| - 1], s[|s| - 1];
      assert s == p + [e];
      assert CoinHits(s, a, b) == CoinHits(p, a, b) + (if TouchesCoin(e, a, b) then 1 else 0);
      DistinctPrefix(p, e);
      CoinHitsCountsTouchedCoins(p, a, b);
      CoinBodiesSnoc(p, e);
      if e.kind == Coin {
        CountFresh(CoinBodies(p), e.body, {a, b});
      }
    }
  }

  lemma DistinctPrefix(p: seq<Entity>, e: Entity)
    requires DistinctBodies(p + [e])
    ensures DistinctBodies(p) && !HasBody(p, e.body)
  {
    var s := p + [e];
    forall i, j | 0 <= i < j < |p| ensures p[i].body != p[j].body {
      assert p[i] == s[i] && p[j] == s[j];
    }
    forall i | 0 <= i < |p| ensures p[i].body != e.body {
      assert p[i] == s[i] && e == s[|p|];
    }
  }

  lemma CoinBodiesSnoc(p: seq<Entity>, e: Entity)
    ensures !HasBody(p, e.body) ==> e.body !in CoinBodies(p)
    ensures CoinBodies(p + [e]) == CoinBodies(p) + (if e.kind == Coin then {e.body} else {})
  {
    var s := p + [e];
    forall x | x in CoinBodies(s) ensures x in CoinBodies(p) + (if e.kind == Coin then {e.body} else {}) {
      var i :| 0 <= i < |s| && s[i].kind == Coin && s[i].body == x;
      if i < |p| { assert p[i] == s[i]; }
    }
    forall x | x in CoinBodies(p) ensures x in CoinBodies(s) {
      var i :| 0 <= i < |p| && p[i].kind == Coin && p[i].body == x;
      assert s[i] == p[i];
    }
    if e.kind == Coin {
      assert s[|p|] == e;
    }
  }

  lemma CountFresh(A: set<BodyId>, x: BodyId, T: set<BodyId>)
    requires x !in A
    ensures |(A + {x}) * T| == |A * T| + (if x in T then 1 else 0)
  {
    if x in T {
      assert (A + {x}) * T == A * T + {x};
    } else {
      assert (A + {x}) * T == A * T;
    }
  }

  /** One contact raises the score by at most two, and by at most one when a
      body touches itself. */
  lemma CoinHitsAtMostTwo(s: seq<Entity>, a: BodyId, b: BodyId)
    requires DistinctBodies(s)
    ensures CoinHits(s, a, b) <= 2
    ensures a == b ==> CoinHits(s, a, b) <= 1
  {
    CoinHitsCountsTouchedCoins(s, a, b);
    var t := CoinBodies(s) * {a, b};
    if a in t {
      if b in t && a != b {
        assert t == {a, b};
      } else {
        assert t == {a};
      }
    } else if b in t {
      assert t == {b};
    } else {
      assert t == {};
    }
  }

  /** The pending slot is set exactly when the score moves, and then it holds
      the body of the last matching coin record. */
  lemma {:induction false} LastCoinHitSpec(s: seq<Entity>, a: BodyId, b: BodyId)
    ensures LastCoinHit(s, a, b).None? <==> CoinHits(s, a, b) == 0
    ensures LastCoinHit(s, a, b).None? <==> forall i :: 0 <= i < |s| ==> !TouchesCoin(s[i], a, b)
    ensures LastCoinHit(s, a, b).Some? ==>
      exists i :: 0 <= i < |s| && TouchesCoin(s[i], a, b) && s[i].body == LastCoinHit(s, a, b).value
        && forall j :: i < j < |s| ==> !TouchesCoin(s[j], a, b)
  {
    if s != [] {
      var p := s[..|s| - 1];
      LastCoinHitSpec(p, a, b);
      if !TouchesCoin(s[|s| - 1], a, b) {
        if LastCoinHit(p, a, b).Some? {
          var i :| 0 <= i < |p| && TouchesCoin(p[i], a, b) && p[i].body == LastCoinHit(p, a, b).value
            && forall j :: i < j < |p| ==> !TouchesCoin(p[j], a, b);
          assert s[i] == p[i];
          assert forall j :: i < j < |s| ==> !TouchesCoin(s[j], a, b) by {
            forall j | i < j < |s| ensures !TouchesCoin(s[j], a, b) {
              if j < |p| { assert s[j] == p[j]; }
            }
          }
        } else {
          assert forall i :: 0 <= i < |s| ==> !TouchesCoin(s[i], a, b) by {
            forall i | 0 <= i < |s| ensures !TouchesCoin(s[i], a, b) {
              if i < |p| { assert s[i] == p[i]; }
            }
          }
        }
      }
    }
  }

  // ---------------------------------------------------------------------------
  // The pending-coin removal in Game::update

  /** Index of the first record whose body is `h`, or |s| when there is none. */
  function FirstIndexOf(s: seq<Entity>, h: BodyId): (k: nat)
    ensures k <= |s|
    ensures k < |s| ==> s[k].body == h
    ensures forall i :: 0 <= i < k ==> s[i].body != h
  {
    if s == [] then 0
    else if s[0].body == h then 0
    else 1 + FirstIndexOf(s[1..], h)
  }

  /** The list after erasing the first record whose body is `h`. */
  function RemoveFirst(s: seq<Entity>, h: BodyId): seq<Entity>
  {
    var k := FirstIndexOf(s, h);
    if k < |s| then s[..k] + s[k + 1..] else s
  }

  /** Erasing the pending body takes exactly one record away when the body is
      registered, keeps the others in order, and leaves no record referring to
      the destroyed body; an unregistered body leaves the list as it was. */
  lemma RemoveFirstSpec(s: seq<Entity>, h: BodyId)
    requires DistinctBodies(s)
    ensures HasBody(s, h) ==> |RemoveFirst(s, h)| == |s| - 1
    ensures !HasBody(s, h) ==> RemoveFirst(s, h) == s
    ensures Subsequence(RemoveFirst(s, h), s)
    ensures DistinctBodies(RemoveFirst(s, h))
    ensures forall b :: HasBody(RemoveFirst(s, h), b) <==> HasBody(s, b) && b != h
    ensures forall e :: e in RemoveFirst(s, h) ==> e in s
  {
    var k := FirstIndexOf(s, h);
    if k < |s| {
      assert HasBody(s, h);
      DropOneSpec(s, k);
      DropOneIsSubsequence(s, k);
    } else {
      assert !HasBody(s, h);
      SelfSubsequence(s);
    }
  }

  lemma DropOneSpec(s: seq<Entity>, k: nat)
    requires DistinctBodies(s) && k < |s|
    ensures var r := s[..k] + s[k + 1..];
      DistinctBodies(r)
      && (forall b :: HasBody(r, b) <==> HasBody(s, b) && b != s[k].body)
      && (forall e :: e in r ==> e in s)
  {
    var r := s[..k] + s[k + 1..];
    assert forall i :: 0 <= i < |r| ==> r[i] == s[if i < k then i else i + 1];
    forall b ensures HasBody(r, b) <==> HasBody(s, b) && b != s[k].body {
      if HasBody(s, b) && b != s[k].body {
        var i :| 0 <= i < |s| && s[i].body == b;
        assert r[if i < k then i else i - 1] == s[i];
      }
    }
  }

  lemma {:induction false} SelfSubsequence(s: seq<Entity>)
    ensures Subsequence(s, s)
  {
    if s != [] {
      SelfSubsequence(s[1..]);
    }
  }

  lemma {:induction false} DropOneIsSubsequence(s: seq<Entity>, k: nat)
    requires k < |s|
    ensures Subsequence(s[..k] + s[k + 1..], s)
  {
    if k == 0 {
      assert s[..k] + s[k + 1..] == s[1..];
      SelfSubsequence(s[1..]);
    } else {
      DropOneIsSubsequence(s[1..], k - 1);
      var r := s[..k] + s[k + 1..];
      assert r[0] == s[0];
      assert r[1..] == s[1..][..k - 1] + s[1..][k..];
    }
  }

  // ---------------------------------------------------------------------------
  // The behind-camera prune in main

  /** The record lies more than 62.5 metres behind the camera centre `camX`
      (pixels) and is not the character: the prune condition. */
  predicate Behind(e: Entity, pos: seq<Vec>, camX: real)
    requires e.body < |pos|
  {
    Converter.PixelToMeter(camX) - pos[e.body].x > 62.5 && e.kind != Character
  }

  /** The records the index-based erase loop keeps. After erasing index i the
      loop still steps to i + 1, so the record that slid into index i is kept
      without being examined. */
  function Kept(s: seq<Entity>, pos: seq<Vec>, camX: real): seq<Entity>
    requires Located(s, pos)
    decreases |s|
  {
    if s == [] then []
    else if Behind(s[0], pos, camX) then (if |s| == 1 then [] else [s[1]] + Kept(s[2..], pos, camX))
    else [s[0]] + Kept(s[1..], pos, camX)
  }

  /** The bodies the same loop destroys, in the order it destroys them. */
  function Pruned(s: seq<Entity>, pos: seq<Vec>, camX: real): seq<BodyId>
    requires Located(s, pos)
    decreases |s|
  {
    if s == [] then []
    else if Behind(s[0], pos, camX) then [s[0].body] + (if |s| == 1 then [] else Pruned(s[2..], pos, camX))
    else Pruned(s[1..], pos, camX)
  }

  /** Reference: every record that is not behind the camera, in order. */
  function Ahead(s: seq<Entity>, pos: seq<Vec>, camX: real): seq<Entity>
    requires Located(s, pos)
    decreases |s|
  {
    if s == [] then []
    else (if Behind(s[0], pos, camX) then [] else [s[0]]) + Ahead(s[1..], pos, camX)
  }

  /** The prune splits the list: survivors keep their order and every
      destroyed body belonged to a record behind the camera. */
  lemma {:induction false} PruneSplits(s: seq<Entity>, pos: seq<Vec>, camX: real)
    requires Located(s, pos)
    ensures |Kept(s, pos, camX)| + |Pruned(s, pos, camX)| == |s|
    ensures Subsequence(Kept(s, pos, camX), s)
    ensures forall e :: e in Kept(s, pos, camX) ==> e in s
    ensures forall b :: b in Pruned(s, pos, camX) ==>
      exists i :: 0 <= i < |s| && s[i].body == b && Behind(s[i], pos, camX)
  {
    if s != [] {
      var K, P := Kept(s, pos, camX), Pruned(s, pos, camX);
      if Behind(s[0], pos, camX) {
        if |s| == 1 {
          assert K == [] && P == [s[0].body];
        } else {
          var t := s[2..];
          PruneSplits(t, pos, camX);
          var K', P' := Kept(t, pos, camX), Pruned(t, pos, camX);
          assert K == [s[1]] + K' && P == [s[0].body] + P';
          assert K[1..] == K' && s[1..][1..] == t;
          assert Subsequence(K, s[1..]);
          forall b | b in P ensures exists i :: 0 <= i < |s| && s[i].body == b && Behind(s[i], pos, camX) {
            if b in P' {
              var i :| 0 <= i < |t| && t[i].body == b && Behind(t[i], pos, camX);
              assert s[i + 2] == t[i];
            } else {
              assert s[0].body == b;
            }
          }
        }
      } else {
        var t := s[1..];
        PruneSplits(t, pos, camX);
        var K', P' := Kept(t, pos, camX), Pruned(t, pos, camX);
        assert K == [s[0]] + K' && P == P';
        assert K[1..] == K';
        forall b | b in P ensures exists i :: 0 <= i < |s| && s[i].body == b && Behind(s[i], pos, camX) {
          var i :| 0 <= i < |t| && t[i].body == b && Behind(t[i], pos, camX);
          assert s[i + 1] == t[i];
        }
      }
    }
  }

  lemma DistinctSuffix(s: seq<Entity>, n: nat)
    requires DistinctBodies(s) && n <= |s|
    ensures DistinctBodies(s[n..])
    ensures forall e :: e in s[n..] ==> forall i :: 0 <= i < n ==> e.body != s[i].body
  {
    var t := s[n..];
    forall i, j | 0 <= i < j < |t| ensures t[i].body != t[j].body {
      assert t[i] == s[i + n] && t[j] == s[j + n];
    }
    forall e | e in t ensures forall i :: 0 <= i < n ==> e.body != s[i].body {
      var k :| 0 <= k < |t| && t[k] == e;
      assert s[k + n] == e;
    }
  }

  /** With unique handles the survivors still have unique handles and none of
      them refers to a destroyed body. */
  lemma {:induction false} PruneDisjoint(s: seq<Entity>, pos: seq<Vec>, camX: real)
    requires Located(s, pos) && DistinctBodies(s)
    ensures DistinctBodies(Kept(s, pos, camX))
    ensures forall b :: b in Pruned(s, pos, camX) ==> !HasBody(Kept(s, pos, camX), b)
  {
    if s != [] {
      var n := if Behind(s[0], pos, camX) then 2 else 1;
      if n == 2 && |s| == 1 {
        assert Kept(s, pos, camX) == [];
      } else {
        var t, x := s[n..], s[n - 1];
        DistinctSuffix(s, n);
        PruneDisjoint(t, pos, camX);
        PruneSplits(t, pos, camX);
        var K, P := Kept(t, pos, camX), Pruned(t, pos, camX);
        assert Kept(s, pos, camX) == [x] + K;
        assert Pruned(s, pos, camX) == (if n == 2 then [s[0].body] else []) + P;
        assert forall e :: e in t ==> e.body != x.body;
        DistinctCons(x, K);
        forall b | b in Pruned(s, pos, camX) ensures !HasBody([x] + K, b) {
          if b in P {
            var i :| 0 <= i < |t| && t[i].body == b && Behind(t[i], pos, camX);
            assert t[i] in t;
          } else {
            assert b == s[0].body && x == s[1];
            BodiesOutside(t, K, b);
          }
          HasBodyCons(x, K, b);
        }
      }
    }
  }

  lemma HasBodyCons(x: Entity, s: seq<Entity>, b: BodyId)
    ensures HasBody([x] + s, b) <==> x.body == b || HasBody(s, b)
  {
    assert ([x] + s)[0] == x;
    if HasBody(s, b) {
      var i :| 0 <= i < |s| && s[i].body == b;
      assert ([x] + s)[i + 1] == s[i];
    }
    if HasBody([x] + s, b) && x.body != b {
      var i :| 0 <= i < |[x] + s| && ([x] + s)[i].body == b;
      assert s[i - 1] == ([x] + s)[i];
    }
  }

  /** Records drawn from `t`, whose bodies all differ from `b`, do not have body `b`. */
  lemma BodiesOutside(t: seq<Entity>, r: seq<Entity>, b: BodyId)
    requires forall e :: e in r ==> e in t
    requires forall e :: e in t ==> e.body != b
    ensures !HasBody(r, b)
  {
    forall i | 0 <= i < |r| ensures r[i].body != b {
      assert r[i] in r;
    }
  }

  /** The prune never removes a record that is not behind the camera; in
      particular it never removes the character. */
  lemma {:induction false} PruneKeepsAhead(s: seq<Entity>, pos: seq<Vec>, camX: real)
    requires Located(s, pos)
    ensures forall i :: 0 <= i < |s| && !Behind(s[i], pos, camX) ==> s[i] in Kept(s, pos, camX)
    ensures forall i :: 0 <= i < |s| && s[i].kind == Character ==> s[i] in Kept(s, pos, camX)
  {
    if s != [] {
      if Behind(s[0], pos, camX) {
        if |s| > 1 {
          var t := s[2..];
          PruneKeepsAhead(t, pos, camX);
          forall i | 0 <= i < |s| && !Behind(s[i], pos, camX) ensures s[i] in Kept(s, pos, camX) {
            if i >= 2 { assert s[i] == t[i - 2]; }
          }
        }
      } else {
        var t := s[1..];
        PruneKeepsAhead(t, pos, camX);
        forall i | 0 <= i < |s| && !Behind(s[i], pos, camX) ensures s[i] in Kept(s, pos, camX) {
          if i >= 1 { assert s[i] == t[i - 1]; }
        }
      }
    }
  }

  /** The skip: when two neighbours are both behind the camera, the second one
      survives the pass. */
  lemma PruneSkipsSuccessor(s: seq<Entity>, pos: seq<Vec>, camX: real)
    requires Located(s, pos) && |s| >= 2
    requires Behind(s[0], pos, camX) && Behind(s[1], pos, camX)
    ensures Kept(s, pos, camX)[0] == s[1]
    ensures Pruned(s, pos, camX)[0] == s[0].body
  {
  }

  lemma {:induction false} AheadAppend(a: seq<Entity>, b: seq<Entity>, pos: seq<Vec>, camX: real)
    requires Located(a, pos) && Located(b, pos)
    ensures Located(a + b, pos)
    ensures Ahead(a + b, pos, camX) == Ahead(a, pos, camX) + Ahead(b, pos, camX)
  {
    if a != [] {
      assert (a + b)[1..] == a[1..] + b;
      AheadAppend(a[1..], b, pos, camX);
    } else {
      assert a + b == b;
    }
  }

  /** What one pass lets slip through is exactly what the reference filter
      would still remove: filtering the survivors gives the reference result. */
  lemma {:induction false} KeptThenAhead(s: seq<Entity>, pos: seq<Vec>, camX: real)
    requires Located(s, pos)
    ensures Located(Kept(s, pos, camX), pos)
    ensures Ahead(Kept(s, pos, camX), pos, camX) == Ahead(s, pos, camX)
  {
    PruneSplits(s, pos, camX);
    var K := Kept(s, pos, camX);
    forall i | 0 <= i < |K| ensures K[i].body < |pos| {
      assert K[i] in s;
    }
    if s != [] {
      if Behind(s[0], pos, camX) {
        if |s| == 1 {
        } else {
          var t := s[2..];
          KeptThenAhead(t, pos, camX);
          AheadAppend([s[1]], Kept(t, pos, camX), pos, camX);
          assert s[1..] == [s[1]] + t;
          AheadAppend([s[1]], t, pos, camX);
        }
      } else {
        var t := s[1..];
        KeptThenAhead(t, pos, camX);
        AheadAppend([s[0]], Kept(t, pos, camX), pos, camX);
      }
    }
  }

  /** Without two neighbouring records behind the camera, the pass removes
      exactly the records behind it. */
  lemma {:induction false} KeptExactWithoutNeighbours(s: seq<Entity>, pos: seq<Vec>, camX: real)
    requires Located(s, pos)
    requires forall i :: 0 <= i < |s| - 1 ==> !(Behind(s[i], pos, camX) && Behind(s[i + 1], pos, camX))
    ensures Kept(s, pos, camX) == Ahead(s, pos, camX)
  {
    if s != [] {
      if Behind(s[0], pos, camX) {
        if |s| > 1 {
          var t := s[2..];
          assert !Behind(s[1], pos, camX);
          forall i | 0 <= i < |t| - 1 ensures !(Behind(t[i], pos, camX) && Behind(t[i + 1], pos, camX)) {
            assert t[i] == s[i + 2] && t[i + 1] == s[i + 3];
          }
          KeptExactWithoutNeighbours(t, pos, camX);
          assert s[1..][1..] == t;
        }
      } else {
        var t := s[1..];
        forall i | 0 <= i < |t| - 1 ensures !(Behind(t[i], pos, camX) && Behind(t[i + 1], pos, camX)) {
          assert t[i] == s[i + 1] && t[i + 1] == s[i + 2];
        }
        KeptExactWithoutNeighbours(t, pos, camX);
      }
    }
  }

  // ---------------------------------------------------------------------------
  // The rightmost record (largestPosX in main)

  /** The largest x among the records, or 0 when none lies to the right of 0. */
  method LargestPosX(s: seq<Entity>, pos: seq<Vec>) returns (largest: real)
    requires Located(s, pos)
    ensures 0.0 <= largest
    ensures forall i :: 0 <= i < |s| ==> pos[s[i].body].x <= largest
    ensures largest == 0.0 || exists i :: 0 <= i < |s| && pos[s[i].body].x == largest
  {
    largest := 0.0;
    for i := 0 to |s|
      invariant 0.0 <= largest
      invariant forall j :: 0 <= j < i ==> pos[s[j].body].x <= largest
      invariant largest == 0.0 || exists j :: 0 <= j < i && pos[s[j].body].x == largest
    {
      if pos[s[i].body].x > largest {
        largest := pos[s[i].body].x;
      }
    }
  }
}
