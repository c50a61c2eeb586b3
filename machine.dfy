/** The game as the page runs it: the session counters and the flags of the
    current round are variables that the event handlers update in place. Each
    handler is proved to move the state exactly as the matching function of
    BasketModel says. */
module BasketMachine {
  import opened BasketModel

  class Basket {
    // session counters
    var shots: int
    var level: int
    var maxLevel: int
    var celebrating: bool
    // flags of the current round
    var onTop: bool
    var shotsCounter: int
    /** The elastic holds the ball (its second body is the ball, not null). */
    var attached: bool
    var obstacles: int
    /** Celebration continuations scheduled and not yet run. */
    var pending: nat
    /** The menu is shown. */
    var menu: bool
    /** The last saved progress. */
    var stored: Progress
    /** The launch point's y, where a re-armed ball is put back. */
    const launchY: real

    /** The abstract state the handlers are specified on. */
    function State(): Game
      reads this
    {
      Game(shots, level, maxLevel, celebrating, onTop, shotsCounter, attached, obstacles, pending, menu, stored)
    }

    /** Page start-up: the persisted values or their defaults, then the menu. */
    constructor (savedShots: Option<int>, savedLevel: Option<int>, savedMaxLevel: Option<int>, launchY: real)
      ensures State() == Load(savedShots, savedLevel, savedMaxLevel)
      ensures this.launchY == launchY
    {
      this.launchY := launchY;
      shots := savedShots.GetOr(InitialShots);
      level := savedLevel.GetOr(1);
      maxLevel := savedMaxLevel.GetOr(1);
      celebrating := false;
      onTop, shotsCounter, attached, obstacles := false, 0, false, 0;
      pending, menu := 0, false;
      stored := Progress(savedShots.GetOr(InitialShots), savedLevel.GetOr(1), savedMaxLevel.GetOr(1));
      new;
      ShowMenu();
    }

    /** Writes the three persisted scalars. */
    method Save()
      modifies this
      ensures State() == BasketModel.Save(old(State()))
    {
      stored := Progress(shots, level, maxLevel);
    }

    method ShowMenu()
      modifies this
      ensures State() == BasketModel.ShowMenu(old(State()))
    {
      Save();
      menu := true;
    }

    /** Rebuilds the round: fresh flags, the elastic on the ball, and one
        obstacle per level up to the cap. */
    method Initialize()
      modifies this
      ensures State() == NewRound(old(State()))
    {
      onTop := false;
      shotsCounter := 0;
      attached := true;
      obstacles := 0;
      var n := ObstacleCount(level);
      var i := 0;
      while i < n
        invariant 0 <= i <= ObstaclesBuilt(level)
        invariant State() == NewRound(old(State())).(obstacles := i)
      {
        obstacles := obstacles + 1;
        i := i + 1;
      }
    }

    /** The play button. */
    method Play()
      modifies this
      ensures State() == BasketModel.Play(old(State()))
    {
      Initialize();
      menu := false;
    }

    /** The per-tick hook: (dx, dy) is the ball's offset from the launch point. */
    method AfterUpdate(button: int, dx: real, dy: real)
      modifies this
      ensures State() == Launch(old(State()), button, dx, dy)
    {
      var isShot := button == NoButton && dx * dx + dy * dy > LaunchThresholdSq;
      if isShot {
        attached := false;
      }
    }

    /** The collision-start handler over the pairs of one notification. */
    method CollisionStart(pairs: seq<PairKind>, ballY: real, barY: real)
      modifies this
      ensures State() == StartAll(old(State()), pairs, ballY, barY)
    {
      var i := 0;
      while i != |pairs|
        invariant 0 <= i <= |pairs|
        invariant StartAll(State(), pairs[i..], ballY, barY) == StartAll(old(State()), pairs, ballY, barY)
      {
        assert pairs[i..][1..] == pairs[i + 1..];
        if pairs[i] == BallBar && ballY < barY {
          onTop := true;
        }
        i := i + 1;
      }
    }

    /** The collision-end handler over the pairs of one notification, in order. */
    method CollisionEnd(pairs: seq<PairKind>, ballY: real, barY: real)
      modifies this
      ensures State() == EndAll(old(State()), pairs, ballY, barY, launchY)
    {
      var y := ballY;
      var i := 0;
      while i != |pairs|
        invariant 0 <= i <= |pairs|
        invariant EndAll(State(), pairs[i..], y, barY, launchY) == EndAll(old(State()), pairs, ballY, barY, launchY)
      {
        assert pairs[i..][1..] == pairs[i + 1..];
        var pair := pairs[i];
        if pair == BallBar {
          var isGoal := onTop && y > barY;
          if isGoal {
            SetGoal();
          }
          onTop := false;
        } else if pair == BallFloor && !attached {
          SetOut();
          if attached {
            y := launchY;
          }
        }
        i := i + 1;
      }
    }

    /** A goal: the reward, the next level, the best level, the celebration. */
    method SetGoal()
      modifies this
      ensures State() == Goal(old(State()))
    {
      if shotsCounter == 1 {
        shots := shots + FirstShotReward;
      } else {
        shots := shots + GoalReward;
      }
      level := level + 1;
      if level > maxLevel {
        maxLevel := level;
      }
      celebrating := true;
      pending := pending + 1;
    }

    /** A miss: spend a shot unless celebrating, then re-arm or end the session. */
    method SetOut()
      modifies this
      ensures State() == Out(old(State()))
    {
      if !celebrating {
        shots := shots - 1;
      }
      if shots > 0 {
        if !celebrating && !attached {
          attached := true;
        }
      } else {
        level := 1;
        shots := InitialShots;
        ShowMenu();
      }
    }

    /** The continuation scheduled by a goal: rebuild the round, then end the
        celebration. */
    method CelebrationEnd()
      requires pending > 0
      modifies this
      ensures State() == BasketModel.CelebrationEnd(old(State()))
    {
      pending := pending - 1;
      Initialize();
      celebrating := false;
    }
  }
}
