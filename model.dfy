/** The session counters and the shot-resolution rules of the basketball-shot
    game, as pure functions over one value of the whole game state.

    Screen y grows downward: the ball is "above" the basket bar when its y is
    smaller than the bar's. Positions are abstract reals supplied by the
    physics engine with each event. */
module BasketModel {

  datatype Option<T> = None | Some(value: T) {
    function GetOr(default: T): T {
      match this
      case Some(v) => v
      case None => default
    }
  }

  /** Shots a new session starts with. */
  const InitialShots: int := 10
  /** Reward for a goal scored with the first launch of the ball. */
  const FirstShotReward: int := 5
  /** Reward for any other goal. */
  const GoalReward: int := 1
  /** Cap on the number of obstacles in a round. */
  const MaxObstacles: int := 10
  /** The launch threshold of 10 units, squared. */
  const LaunchThresholdSq: real := 100.0
  /** The mouse button value that means "no button pressed". */
  const NoButton: int := -1

  /** What one collision pair joins, as the collision handlers classify it. */
  datatype PairKind = BallBar | BallFloor | Other

  /** The three persisted scalars. */
  datatype Progress = Progress(shots: int, level: int, maxLevel: int)

  /** The whole game state the handlers read and write.
      shots, level, maxLevel, celebrating: the session counters;
      onTop, shotsCounter: the flags of the current round;
      attached: whether the elastic holds the ball (armed) or not (in flight);
      obstacles: how many obstacles the current round was built with;
      pending: celebration continuations scheduled and not yet run;
      menu: whether the menu is shown; stored: what was last saved. */
  datatype Game = Game(
    shots: int,
    level: int,
    maxLevel: int,
    celebrating: bool,
    onTop: bool,
    shotsCounter: int,
    attached: bool,
    obstacles: int,
    pending: nat,
    menu: bool,
    stored: Progress)

  /** An event delivered to the game by the engine, the timer or the menu. */
  datatype Event =
    | Tick(button: int, dx: real, dy: real)
    | CollisionStart(startPairs: seq<PairKind>, startY: real, startBarY: real)
    | CollisionEnd(endPairs: seq<PairKind>, endY: real, endBarY: real)
    | CelebrationTimeout
    | PlayPressed

  /** The invariant: it holds at a first start and every event keeps it, so
      it holds in every state reached from a first start. It is an
      over-approximation of those states, not a definition of them. */
  predicate Inv(g: Game) {
    && 1 <= g.level <= g.maxLevel
    && g.shots >= 1
    && g.shotsCounter == 0
    && (g.celebrating ==> g.pending > 0)
    && 0 <= g.obstacles <= MaxObstacles
    && 1 <= g.stored.level <= g.stored.maxLevel <= g.maxLevel
    && g.stored.shots >= 1
  }

  /** Number of obstacles a round asks for at a given level: the level, capped. */
  function ObstacleCount(level: int): (n: int)
    ensures n <= MaxObstacles && n <= level
    ensures n == level || n == MaxObstacles
  {
    if level < MaxObstacles then level else MaxObstacles
  }

  /** Number of obstacles the building loop actually adds (none for a count below one). */
  function ObstaclesBuilt(level: int): (k: int)
    ensures 0 <= k <= MaxObstacles
    ensures level >= 1 ==> k == ObstacleCount(level)
    ensures level <= 0 ==> k == 0
  {
    var n := ObstacleCount(level);
    if n < 0 then 0 else n
  }

  /** The distance test of the launch detection, on squared distance. */
  predicate Far(dx: real, dy: real) {
    dx * dx + dy * dy > LaunchThresholdSq
  }

  /** Rebuilding the round: fresh flags, elastic attached, obstacles placed. */
  function NewRound(g: Game): (r: Game)
    ensures !r.onTop && r.shotsCounter == 0 && r.attached
    ensures r.obstacles == ObstaclesBuilt(g.level)
    ensures r.(onTop := g.onTop, shotsCounter := g.shotsCounter, attached := g.attached,
               obstacles := g.obstacles) == g
  {
    g.(onTop := false, shotsCounter := 0, attached := true, obstacles := ObstaclesBuilt(g.level))
  }

  /** Writing the three persisted scalars. */
  function Save(g: Game): (r: Game)
    ensures r.stored == Progress(g.shots, g.level, g.maxLevel)
    ensures r.(stored := g.stored) == g
  {
    g.(stored := Progress(g.shots, g.level, g.maxLevel))
  }

  /** Entering the menu saves the progress and shows the menu. */
  function ShowMenu(g: Game): (r: Game)
    ensures r.menu && r.stored == Progress(g.shots, g.level, g.maxLevel)
    ensures r.(menu := g.menu, stored := g.stored) == g
  {
    Save(g).(menu := true)
  }

  /** Start-up: the persisted values, where present, else the defaults; then the menu. */
  function Load(shots: Option<int>, level: Option<int>, maxLevel: Option<int>): (r: Game)
    ensures r.shots == shots.GetOr(InitialShots)
    ensures r.level == level.GetOr(1) && r.maxLevel == maxLevel.GetOr(1)
    ensures !r.celebrating && r.pending == 0 && r.menu
    ensures r.stored == Progress(r.shots, r.level, r.maxLevel)
  {
    var s := shots.GetOr(InitialShots);
    var l := level.GetOr(1);
    var m := maxLevel.GetOr(1);
    ShowMenu(Game(s, l, m, false, false, 0, false, 0, 0, false, Progress(s, l, m)))
  }

  /** The play button: rebuild the round and hide the menu. */
  function Play(g: Game): (r: Game)
    ensures r.attached && !r.onTop && r.shotsCounter == 0 && !r.menu
    ensures r.obstacles == ObstaclesBuilt(g.level)
    ensures r.shots == g.shots && r.level == g.level && r.maxLevel == g.maxLevel
    ensures r.celebrating == g.celebrating && r.pending == g.pending && r.stored == g.stored
  {
    NewRound(g).(menu := false)
  }

  /** The per-tick hook: the elastic lets go of the ball once the button is
      released with the ball far enough from the launch point. */
  function Launch(g: Game, button: int, dx: real, dy: real): (r: Game)
    ensures r.attached <==> g.attached && !(button == NoButton && Far(dx, dy))
    ensures r.(attached := g.attached) == g
  {
    if button == NoButton && Far(dx, dy) then g.(attached := false) else g
  }

  /** Collision-start: the ball meeting the bar from above marks entry from the top. */
  function StartAll(g: Game, pairs: seq<PairKind>, ballY: real, barY: real): (r: Game)
    ensures r.onTop <==> g.onTop || (BallBar in pairs && ballY < barY)
    ensures r.(onTop := g.onTop) == g
    decreases |pairs|
  {
    if pairs == [] then g
    else
      var g' := if pairs[0] == BallBar && ballY < barY then g.(onTop := true) else g;
      StartAll(g', pairs[1..], ballY, barY)
  }

  /** The goal test of a ball/bar collision-end: entered from the top, now below. */
  predicate Scores(g: Game, ballY: real, barY: real) {
    g.onTop && ballY > barY
  }

  /** A goal: reward, next level, best level, celebration scheduled. */
  function Goal(g: Game): (r: Game)
    ensures r.shots == g.shots + FirstShotReward || r.shots == g.shots + GoalReward
    ensures r.shots == g.shots + FirstShotReward <==> g.shotsCounter == 1
    ensures r.level == g.level + 1
    ensures r.maxLevel >= r.level && r.maxLevel >= g.maxLevel
    ensures r.maxLevel == g.maxLevel || r.maxLevel == r.level
    ensures r.celebrating && r.pending == g.pending + 1
    ensures r.(shots := g.shots, level := g.level, maxLevel := g.maxLevel,
               celebrating := g.celebrating, pending := g.pending) == g
  {
    var shots := if g.shotsCounter == 1 then g.shots + FirstShotReward else g.shots + GoalReward;
    var level := g.level + 1;
    var maxLevel := if level > g.maxLevel then level else g.maxLevel;
    g.(shots := shots, level := level, maxLevel := maxLevel, celebrating := true, pending := g.pending + 1)
  }

  /** Shots left after a miss: one fewer, unless celebrating. */
  function ShotsAfterMiss(g: Game): int {
    if g.celebrating then g.shots else g.shots - 1
  }

  /** A miss: spend a shot unless celebrating; then re-arm, or end the session. */
  function Out(g: Game): (r: Game)
    ensures g.celebrating && g.shots > 0 ==> r == g
    ensures !g.celebrating && g.shots > 1 ==> r == g.(shots := g.shots - 1, attached := true)
    ensures ShotsAfterMiss(g) <= 0 ==>
              && r.shots == InitialShots && r.level == 1 && r.maxLevel == g.maxLevel
              && r.menu && r.stored == Progress(InitialShots, 1, g.maxLevel)
              && r.(shots := g.shots, level := g.level, menu := g.menu, stored := g.stored) == g
  {
    var left := ShotsAfterMiss(g);
    if left > 0 then
      if !g.celebrating && !g.attached then g.(shots := left, attached := true)
      else g.(shots := left)
    else
      ShowMenu(g.(level := 1, shots := InitialShots))
  }

  /** Collision-end of one pair: a goal (bar) or a miss (floor, elastic detached). */
  function EndOne(g: Game, p: PairKind, ballY: real, barY: real): (r: Game)
    ensures p == Other ==> r == g
    ensures p == BallFloor && g.attached ==> r == g
    ensures p == BallFloor && !g.attached ==> r == Out(g) && r.onTop == g.onTop
    ensures p == BallBar ==> !r.onTop
    ensures p == BallBar ==> (r.pending == g.pending + 1 <==> g.onTop && ballY > barY)
    ensures p == BallBar && g.onTop && ballY > barY ==> r == Goal(g).(onTop := false)
    ensures p == BallBar && !(g.onTop && ballY > barY) ==> r == g.(onTop := false)
    ensures r.maxLevel >= g.maxLevel
  {
    match p
    case BallBar => (if Scores(g, ballY, barY) then Goal(g) else g).(onTop := false)
    case BallFloor => if !g.attached then Out(g) else g
    case Other => g
  }

  /** Where the ball is after one pair: at the launch point if the pair re-armed it. */
  function NextY(g: Game, p: PairKind, ballY: real, launchY: real): (r: real)
    ensures r == launchY || r == ballY
    ensures p != BallFloor || g.attached ==> r == ballY
    ensures p == BallFloor && !g.attached && !g.celebrating && g.shots > 1 ==> r == launchY
    ensures p == BallFloor && !g.attached && !Out(g).attached ==> r == ballY
  {
    if p == BallFloor && !g.attached && Out(g).attached then launchY else ballY
  }

  /** Collision-end: the pairs of one notification, in order. */
  function EndAll(g: Game, pairs: seq<PairKind>, ballY: real, barY: real, launchY: real): (r: Game)
    ensures r.onTop <==> g.onTop && BallBar !in pairs
    ensures r.maxLevel >= g.maxLevel
    ensures r.shotsCounter == g.shotsCounter && r.obstacles == g.obstacles
    decreases |pairs|
  {
    if pairs == [] then g
    else
      EndAll(EndOne(g, pairs[0], ballY, barY), pairs[1..],
             NextY(g, pairs[0], ballY, launchY), barY, launchY)
  }

  /** The celebration continuation: rebuild the round, then clear the celebration. */
  function CelebrationEnd(g: Game): (r: Game)
    requires g.pending > 0
    ensures r.attached && !r.onTop && r.shotsCounter == 0 && !r.celebrating
    ensures r.obstacles == ObstaclesBuilt(g.level)
    ensures r.pending == g.pending - 1
    ensures r.shots == g.shots && r.level == g.level && r.maxLevel == g.maxLevel
    ensures r.menu == g.menu && r.stored == g.stored
  {
    NewRound(g).(celebrating := false, pending := g.pending - 1)
  }

  /** One event. A timeout with nothing scheduled cannot fire and changes nothing. */
  function Step(g: Game, e: Event, launchY: real): Game {
    match e
    case Tick(b, dx, dy) => Launch(g, b, dx, dy)
    case CollisionStart(ps, y, barY) => StartAll(g, ps, y, barY)
    case CollisionEnd(ps, y, barY) => EndAll(g, ps, y, barY, launchY)
    case CelebrationTimeout => if g.pending > 0 then CelebrationEnd(g) else g
    case PlayPressed => Play(g)
  }

  /** A sequence of events, in order. */
  function Run(g: Game, es: seq<Event>, launchY: real): Game
    decreases |es|
  {
    if es == [] then g else Run(Step(g, es[0], launchY), es[1..], launchY)
  }
}
