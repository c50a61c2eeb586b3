/** What the shot-resolution rules guarantee, over one event and over any
    sequence of events. */
module BasketProperties {
  import opened BasketModel

  // ---------------------------------------------------------------------------
  // Launch detection

  /** The squared-distance test agrees with "more than 10 units away". */
  lemma FarIffMoreThanTen(dx: real, dy: real, d: real)
    requires d >= 0.0 && d * d == dx * dx + dy * dy
    ensures Far(dx, dy) <==> d > 10.0
  {
    if d > 10.0 {
      assert d * d > 10.0 * d >= 100.0;
    } else {
      assert d * d <= 10.0 * d <= 100.0;
    }
  }

  /** Ball/bar and ball/floor collision-ends never detach the elastic. */
  lemma {:induction false} EndAllKeepsAttached(g: Game, pairs: seq<PairKind>, ballY: real, barY: real, launchY: real)
    requires g.attached
    ensures EndAll(g, pairs, ballY, barY, launchY).attached
    decreases |pairs|
  {
    if pairs != [] {
      var g' := EndOne(g, pairs[0], ballY, barY);
      assert g'.attached;
      EndAllKeepsAttached(g', pairs[1..], NextY(g, pairs[0], ballY, launchY), barY, launchY);
    }
  }

  /** A detached elastic is attached again only by a ball/floor collision-end
      (the re-arm of a miss). */
  lemma {:induction false} EndAllAttachesOnlyOnFloor(g: Game, pairs: seq<PairKind>, ballY: real, barY: real, launchY: real)
    requires !g.attached && BallFloor !in pairs
    ensures !EndAll(g, pairs, ballY, barY, launchY).attached
    decreases |pairs|
  {
    if pairs != [] {
      var g' := EndOne(g, pairs[0], ballY, barY);
      assert !g'.attached;
      EndAllAttachesOnlyOnFloor(g', pairs[1..], NextY(g, pairs[0], ballY, launchY), barY, launchY);
    }
  }

  /** The elastic lets go of the ball only on a tick with the button released
      and the ball far enough from the launch point. */
  lemma DetachOnlyByLaunch(g: Game, e: Event, launchY: real)
    requires g.attached && !Step(g, e, launchY).attached
    ensures e.Tick? && e.button == NoButton && Far(e.dx, e.dy)
  {
    if e.CollisionEnd? {
      EndAllKeepsAttached(g, e.endPairs, e.endY, e.endBarY, launchY);
    }
  }

  /** Once detached, the elastic stays detached until a miss re-arms it or the
      round is rebuilt (celebration end or play). */
  lemma AttachOnlyByRearmOrRebuild(g: Game, e: Event, launchY: real)
    requires !g.attached && Step(g, e, launchY).attached
    ensures (e.CollisionEnd? && BallFloor in e.endPairs) || e.CelebrationTimeout? || e.PlayPressed?
  {
    if e.CollisionEnd? && BallFloor !in e.endPairs {
      EndAllAttachesOnlyOnFloor(g, e.endPairs, e.endY, e.endBarY, launchY);
    }
  }

  // ---------------------------------------------------------------------------
  // Goal detection

  /** Without entry from the top, no collision-end scores a goal: no celebration
      continuation is scheduled and the entry flag stays clear. */
  lemma {:induction false} NoGoalWithoutTopEntry(g: Game, pairs: seq<PairKind>, ballY: real, barY: real, launchY: real)
    requires !g.onTop
    ensures var r := EndAll(g, pairs, ballY, barY, launchY);
      r.pending == g.pending && r.celebrating == g.celebrating && !r.onTop
    decreases |pairs|
  {
    if pairs != [] {
      var g' := EndOne(g, pairs[0], ballY, barY);
      assert g'.pending == g.pending && g'.celebrating == g.celebrating && !g'.onTop;
      NoGoalWithoutTopEntry(g', pairs[1..], NextY(g, pairs[0], ballY, launchY), barY, launchY);
    }
  }

  /** A collision-start with the ball at or below the bar does not arm the goal,
      so no later collision-end scores, wherever the ball then leaves the bar. */
  lemma StartBelowNeverScores(g: Game, startPairs: seq<PairKind>, y1: real, endPairs: seq<PairKind>, y2: real,
                              barY: real, launchY: real)
    requires !g.onTop && y1 >= barY
    ensures var r := EndAll(StartAll(g, startPairs, y1, barY), endPairs, y2, barY, launchY);
      r.pending == g.pending && r.celebrating == g.celebrating
  {
    NoGoalWithoutTopEntry(StartAll(g, startPairs, y1, barY), endPairs, y2, barY, launchY);
  }

  /** Entry from the top followed by exit from the bottom is a goal: the state
      is exactly the goal's (reward, one more level, best level, one celebration
      scheduled) with the entry flag cleared. */
  lemma TopEntryThenBottomExitScores(g: Game, startPairs: seq<PairKind>, y1: real, y2: real, barY: real, launchY: real)
    requires BallBar in startPairs && y1 < barY && y2 > barY
    ensures var r := EndAll(StartAll(g, startPairs, y1, barY), [BallBar], y2, barY, launchY);
      && r == Goal(StartAll(g, startPairs, y1, barY)).(onTop := false)
      && r.level == g.level + 1 && r.pending == g.pending + 1 && r.celebrating
      && r.shots == g.shots + (if g.shotsCounter == 1 then FirstShotReward else GoalReward) && !r.onTop
  {
  }

  /** A ball/bar collision-end scores exactly when the ball entered from the top
      and is now below the bar. */
  lemma BarEndScoresExactly(g: Game, ballY: real, barY: real)
    ensures var r := EndOne(g, BallBar, ballY, barY);
      (r.pending == g.pending + 1 <==> g.onTop && ballY > barY) && !r.onTop
  {
  }

  // ---------------------------------------------------------------------------
  // Goal reward

  /** shotsCounter is never raised, so in every state satisfying the invariant
      a goal is worth one shot and the first-shot reward of five is never paid. */
  lemma ReachableRewardIsOne(g: Game)
    requires Inv(g)
    ensures Goal(g).shots == g.shots + GoalReward
  {
  }

  // ---------------------------------------------------------------------------
  // Misses and celebration

  /** During a celebration, a batch without a ball/bar pair changes nothing:
      no shot is spent and the ball is not re-armed. */
  lemma {:induction false} CelebrationSuppressesMisses(g: Game, pairs: seq<PairKind>, ballY: real, barY: real, launchY: real)
    requires g.celebrating && g.shots > 0 && BallBar !in pairs
    ensures EndAll(g, pairs, ballY, barY, launchY) == g
    decreases |pairs|
  {
    if pairs != [] {
      assert EndOne(g, pairs[0], ballY, barY) == g;
      CelebrationSuppressesMisses(g, pairs[1..], NextY(g, pairs[0], ballY, launchY), barY, launchY);
    }
  }

  /** During a celebration no collision-end spends a shot, whatever the pairs:
      the shots and the level can only rise, and the celebration goes on. */
  lemma {:induction false} CelebrationNeverSpends(g: Game, pairs: seq<PairKind>, ballY: real, barY: real, launchY: real)
    requires g.celebrating && g.shots > 0
    ensures var r := EndAll(g, pairs, ballY, barY, launchY);
      r.shots >= g.shots && r.level >= g.level && r.celebrating
    decreases |pairs|
  {
    if pairs != [] {
      var g' := EndOne(g, pairs[0], ballY, barY);
      assert g'.shots >= g.shots && g'.level >= g.level && g'.celebrating;
      CelebrationNeverSpends(g', pairs[1..], NextY(g, pairs[0], ballY, launchY), barY, launchY);
    }
  }

  /** A floor contact while the elastic still holds the ball changes nothing. */
  lemma {:induction false} FloorWhileTetheredIsInert(g: Game, pairs: seq<PairKind>, ballY: real, barY: real, launchY: real)
    requires g.attached && BallBar !in pairs
    ensures EndAll(g, pairs, ballY, barY, launchY) == g
    decreases |pairs|
  {
    if pairs != [] {
      assert EndOne(g, pairs[0], ballY, barY) == g;
      FloorWhileTetheredIsInert(g, pairs[1..], NextY(g, pairs[0], ballY, launchY), barY, launchY);
    }
  }

  /** A miss in free flight outside a celebration spends exactly one shot and
      re-arms; only the last shot ends the session, which restarts at level 1
      with the initial shots, keeps the best level and saves all three. */
  lemma MissInFreeFlight(g: Game, ballY: real, barY: real)
    requires Inv(g) && !g.attached && !g.celebrating
    ensures var r := EndOne(g, BallFloor, ballY, barY);
      if g.shots > 1 then
        r == g.(shots := g.shots - 1, attached := true)
      else
        && g.shots == 1
        && r.shots == InitialShots && r.level == 1 && r.maxLevel == g.maxLevel
        && r.menu && r.stored == Progress(InitialShots, 1, g.maxLevel)
  {
  }

  /** In a state satisfying the invariant the shots left after a miss are never
      negative, and the session ends only when they reach exactly zero, never
      while celebrating. */
  lemma ResetOnlyAtZero(g: Game)
    requires Inv(g)
    ensures ShotsAfterMiss(g) >= 0
    ensures ShotsAfterMiss(g) == 0 <==> !g.celebrating && g.shots == 1
  {
  }

  // ---------------------------------------------------------------------------
  // Invariants over runs

  lemma {:induction false} EndAllPreservesInv(g: Game, pairs: seq<PairKind>, ballY: real, barY: real, launchY: real)
    requires Inv(g)
    ensures Inv(EndAll(g, pairs, ballY, barY, launchY))
    decreases |pairs|
  {
    if pairs != [] {
      var g' := EndOne(g, pairs[0], ballY, barY);
      assert Inv(g');
      EndAllPreservesInv(g', pairs[1..], NextY(g, pairs[0], ballY, launchY), barY, launchY);
    }
  }

  /** Every event keeps the invariant: maxLevel >= level >= 1, at least one shot,
      shotsCounter zero, a celebration always has its continuation scheduled. */
  lemma StepPreservesInv(g: Game, e: Event, launchY: real)
    requires Inv(g)
    ensures Inv(Step(g, e, launchY))
  {
    if e.CollisionEnd? {
      EndAllPreservesInv(g, e.endPairs, e.endY, e.endBarY, launchY);
    }
  }

  lemma {:induction false} RunPreservesInv(g: Game, es: seq<Event>, launchY: real)
    requires Inv(g)
    ensures Inv(Run(g, es, launchY))
    decreases |es|
  {
    if es != [] {
      StepPreservesInv(g, es[0], launchY);
      RunPreservesInv(Step(g, es[0], launchY), es[1..], launchY);
    }
  }

  /** The best level never falls, whatever happens (a session reset included). */
  lemma {:induction false} MaxLevelNeverDecreases(g: Game, es: seq<Event>, launchY: real)
    ensures Run(g, es, launchY).maxLevel >= g.maxLevel
    decreases |es|
  {
    if es != [] {
      var g' := Step(g, es[0], launchY);
      assert g'.maxLevel >= g.maxLevel;
      MaxLevelNeverDecreases(g', es[1..], launchY);
    }
  }

  // ---------------------------------------------------------------------------
  // Sessions and persistence

  /** A first start with nothing persisted: 10 shots, level 1, best level 1,
      saved as such, and the invariant holds. */
  lemma DefaultStart()
    ensures var g := Load(None, None, None);
      && g.shots == InitialShots && g.level == 1 && g.maxLevel == 1
      && g.stored == Progress(InitialShots, 1, 1) && Inv(g)
  {
  }

  /** Loading what was saved gives back exactly the saved progress, and from a
      state satisfying the invariant it gives one that satisfies it too. */
  lemma ReloadRestoresProgress(g: Game)
    ensures var r := Load(Some(g.stored.shots), Some(g.stored.level), Some(g.stored.maxLevel));
      Progress(r.shots, r.level, r.maxLevel) == g.stored && (Inv(g) ==> Inv(r))
  {
  }

  /** From a first start, every goal at any later point is worth exactly one shot
      and the best level is never below the level. */
  lemma FromDefaultStart(es: seq<Event>, launchY: real)
    ensures var g := Run(Load(None, None, None), es, launchY);
      Goal(g).shots == g.shots + GoalReward && g.maxLevel >= g.level >= 1
  {
    DefaultStart();
    RunPreservesInv(Load(None, None, None), es, launchY);
  }

  // ---------------------------------------------------------------------------
  // End-to-end scenarios

  /** A run is its first step followed by the rest. */
  lemma RunCons(g: Game, e: Event, es: seq<Event>, launchY: real)
    ensures Run(g, [e] + es, launchY) == Run(Step(g, e, launchY), es, launchY)
  {
  }

  /** A fresh session, one launch, a goal on the first attempt: as the code is
      written the reward is one shot, so 11 shots, level 2, best level 2. */
  lemma FirstShotGoalScenario(launchY: real)
    ensures var g := Run(Load(None, None, None),
                         [PlayPressed, Tick(NoButton, 0.0, 20.0),
                          CollisionStart([BallBar], 100.0, 200.0),
                          CollisionEnd([BallBar], 300.0, 200.0)], launchY);
      g.shots == 11 && g.level == 2 && g.maxLevel == 2 && g.celebrating && !g.attached
  {
    var e1, e2 := CollisionStart([BallBar], 100.0, 200.0), CollisionEnd([BallBar], 300.0, 200.0);
    var g0 := Load(None, None, None);
    var g1 := Play(g0);
    var g2 := Launch(g1, NoButton, 0.0, 20.0);
    var g3 := StartAll(g2, [BallBar], 100.0, 200.0);
    var g4 := EndAll(g3, [BallBar], 300.0, 200.0, launchY);
    assert g4 == EndOne(g3, BallBar, 300.0, 200.0);
    RunCons(g3, e2, [], launchY);
    RunCons(g2, e1, [e2], launchY);
    RunCons(g1, Tick(NoButton, 0.0, 20.0), [e1, e2], launchY);
    RunCons(g0, PlayPressed, [Tick(NoButton, 0.0, 20.0), e1, e2], launchY);
  }

  /** The last shot missed: the session resets to 10 shots at level 1. */
  lemma LastShotMissedScenario(launchY: real)
    ensures var g := Run(Load(Some(1), Some(4), Some(6)),
                         [PlayPressed, Tick(NoButton, 15.0, 0.0),
                          CollisionEnd([Other, BallFloor], 900.0, 200.0)], launchY);
      && g.shots == InitialShots && g.level == 1 && g.maxLevel == 6 && g.menu
      && g.stored == Progress(InitialShots, 1, 6)
  {
    var e := CollisionEnd([Other, BallFloor], 900.0, 200.0);
    var g0 := Load(Some(1), Some(4), Some(6));
    var g1 := Play(g0);
    var g2 := Launch(g1, NoButton, 15.0, 0.0);
    assert !g2.attached && g2.shots == 1;
    var g3 := EndAll(g2, [Other, BallFloor], 900.0, 200.0, launchY);
    assert g3 == EndAll(g2, [BallFloor], 900.0, 200.0, launchY);
    assert g3 == Out(g2);
    RunCons(g2, e, [], launchY);
    RunCons(g1, Tick(NoButton, 15.0, 0.0), [e], launchY);
    RunCons(g0, PlayPressed, [Tick(NoButton, 15.0, 0.0), e], launchY);
  }
}
