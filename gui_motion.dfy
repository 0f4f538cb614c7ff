/** The per-frame motion of a battle window (Battle GUI Core), as pure
    functions of the window's position state.  The class in `GuiWindow`
    performs the same steps in place; every lemma here is about these
    functions. */
module GuiMotion {
  import opened Wrappers

  /** One entry of the motion table: four code strings, evaluated every
      frame. */
  datatype Motion = Motion(condition: string, speed: string, x: string, y: string)

  /** The plugin's load-time configuration. */
  datatype Config = Config(
    forceScreens: seq<string>,        // lower-cased names of windows kept on screen
    motionSpeed: string,              // code for the speed back to offset 0
    moveDistance: Option<int>,        // `parseInt` of the instant-move distance; None is NaN
    motions: map<string, seq<Motion>> // motion rules per lower-cased window name
  )

  /** What `eval` yields during one frame: the truth of a condition string,
      the number a code string evaluates to, and the screen box size. */
  datatype FrameEnv = FrameEnv(truth: string -> bool, value: string -> int, boxWidth: int, boxHeight: int)

  /** The position state of a window: the published `x`/`y`, the true
      position, its goal, the offset, the offset's goal and its speed. */
  datatype Pose = Pose(
    x: int, y: int,
    trueX: int, trueY: int,
    goalX: int, goalY: int,
    offsetX: int, offsetY: int,
    offsetXGoal: int, offsetYGoal: int,
    offsetSpeed: int)

  /** Pixels the true position moves toward its goal per frame. */
  const SlideStep := 4

  function Abs(n: int): nat {
    if n < 0 then -n else n
  }

  function Max(a: int, b: int): int {
    if a < b then b else a
  }

  /** `to` lies between `from` and `goal`, and is `speed` closer to the goal
      than `from` was, or at the goal. */
  predicate ApproachesBy(from: int, goal: int, to: int, speed: int) {
    (if from <= goal then from <= to <= goal else goal <= to <= from)
    && Abs(to - goal) == Max(Abs(from - goal) - speed, 0)
  }

  /** One step of `cur` toward `goal`, clipped at the goal. */
  function Approach(cur: int, goal: int, speed: int): (r: int)
    ensures cur == goal ==> r == cur
    ensures speed >= 0 ==> ApproachesBy(cur, goal, r, speed)
  {
    if cur < goal then
      (if cur + speed > goal then goal else cur + speed)
    else if cur > goal then
      (if cur - speed < goal then goal else cur - speed)
    else cur
  }

  /** How far the true position is from its goal, on the worse axis. */
  function Distance(p: Pose): nat {
    Max(Abs(p.trueX - p.goalX), Abs(p.trueY - p.goalY))
  }

  /** Either axis is farther from the goal than the instant-move distance
      (a NaN distance never compares greater). */
  predicate IsFar(p: Pose, moveDistance: Option<int>) {
    moveDistance.Some?
    && (Abs(p.trueX - p.goalX) > moveDistance.value || Abs(p.trueY - p.goalY) > moveDistance.value)
  }

  /** `instantPlacement`: the true position jumps to the goal. */
  function Snapped(p: Pose): (r: Pose)
    ensures Distance(r) == 0
    ensures r == p.(trueX := r.trueX, trueY := r.trueY)
  {
    p.(trueX := p.goalX, trueY := p.goalY)
  }

  /** The first half of `updateMovement`: snap when far, then slide each
      axis `SlideStep` pixels toward the goal. */
  function MoveTowardGoal(p: Pose, moveDistance: Option<int>): (r: Pose)
    ensures IsFar(p, moveDistance) ==> r.trueX == p.goalX && r.trueY == p.goalY
    ensures !IsFar(p, moveDistance) ==>
              ApproachesBy(p.trueX, p.goalX, r.trueX, SlideStep)
              && ApproachesBy(p.trueY, p.goalY, r.trueY, SlideStep)
    ensures p.trueX == p.goalX ==> r.trueX == p.trueX
    ensures p.trueY == p.goalY ==> r.trueY == p.trueY
    ensures Distance(r) == if IsFar(p, moveDistance) then 0 else Max(Distance(p) - SlideStep, 0)
    ensures r == p.(trueX := r.trueX, trueY := r.trueY)
  {
    var q := if IsFar(p, moveDistance) then Snapped(p) else p;
    q.(trueX := Approach(q.trueX, q.goalX, SlideStep), trueY := Approach(q.trueY, q.goalY, SlideStep))
  }

  /** Rule `i` is the first whose condition holds. */
  predicate FirstOn(rules: seq<Motion>, truth: string -> bool, i: int) {
    0 <= i < |rules| && truth(rules[i].condition)
    && forall j :: 0 <= j < i ==> !truth(rules[j].condition)
  }

  /** The index of the first rule at or after `from` whose condition holds. */
  function FirstActiveFrom(rules: seq<Motion>, truth: string -> bool, from: nat): (r: Option<nat>)
    requires forall j :: 0 <= j < from && j < |rules| ==> !truth(rules[j].condition)
    ensures r.Some? ==> FirstOn(rules, truth, r.value)
    ensures r.None? ==> forall j :: 0 <= j < |rules| ==> !truth(rules[j].condition)
    decreases |rules| - from
  {
    if from >= |rules| then None
    else if truth(rules[from].condition) then Some(from)
    else FirstActiveFrom(rules, truth, from + 1)
  }

  /** `updateOffsetConditions`: the first rule whose condition holds sets
      the offset goals and speed; when none holds they fall back to 0 and the
      reset speed; a window without rules keeps them. */
  function MotionGoals(p: Pose, rules: Option<seq<Motion>>, motionSpeed: string, env: FrameEnv): (r: Pose)
    ensures rules.None? ==> r == p
    ensures rules.Some? ==> forall i :: FirstOn(rules.value, env.truth, i) ==>
              r == p.(offsetXGoal := env.value(rules.value[i].x),
                      offsetYGoal := env.value(rules.value[i].y),
                      offsetSpeed := env.value(rules.value[i].speed))
    ensures rules.Some? && (forall i :: 0 <= i < |rules.value| ==> !env.truth(rules.value[i].condition)) ==>
              r == p.(offsetXGoal := 0, offsetYGoal := 0, offsetSpeed := env.value(motionSpeed))
  {
    match rules
    case None => p
    case Some(rs) =>
      match FirstActiveFrom(rs, env.truth, 0)
      case Some(i) =>
        p.(offsetXGoal := env.value(rs[i].x), offsetYGoal := env.value(rs[i].y),
           offsetSpeed := env.value(rs[i].speed))
      case None => p.(offsetXGoal := 0, offsetYGoal := 0, offsetSpeed := env.value(motionSpeed))
  }

  /** `updateOffset`: each offset steps toward its goal at the offset speed. */
  function StepOffset(p: Pose): (r: Pose)
    ensures p.offsetSpeed >= 0 ==>
              ApproachesBy(p.offsetX, p.offsetXGoal, r.offsetX, p.offsetSpeed)
              && ApproachesBy(p.offsetY, p.offsetYGoal, r.offsetY, p.offsetSpeed)
    ensures p.offsetX == p.offsetXGoal ==> r.offsetX == p.offsetX
    ensures p.offsetY == p.offsetYGoal ==> r.offsetY == p.offsetY
    ensures r == p.(offsetX := r.offsetX, offsetY := r.offsetY)
  {
    p.(offsetX := Approach(p.offsetX, p.offsetXGoal, p.offsetSpeed),
       offsetY := Approach(p.offsetY, p.offsetYGoal, p.offsetSpeed))
  }

  /** One axis of `updateScreenRestrict`: the true coordinate `t` moves the
      least needed so that the window, drawn at `t + off` with extent `size`,
      lies inside `[0, box]`; when it cannot fit, its near edge is at 0. */
  function ClampAxis(t: int, off: int, size: int, box: int): (r: int)
    ensures r + off >= 0
    ensures size <= box ==> r + off + size <= box
    ensures 0 <= t + off && t + off + size <= box ==> r == t
    ensures t + off < 0 ==> r + off == 0
    ensures size <= box && t + off + size > box ==> r + off + size == box
    ensures size > box && t + off >= 0 ==> r + off == 0
  {
    var pulled := if t + off + size > box then box - size - off else t;
    if pulled + off < 0 then -off else pulled
  }

  /** `updateScreenRestrict`: for a window that must stay on screen, only
      the true position moves, until the window is inside the box. */
  function Restrict(p: Pose, stay: bool, width: int, height: int, env: FrameEnv): (r: Pose)
    ensures !stay ==> r == p
    ensures r == p.(trueX := r.trueX, trueY := r.trueY)
    ensures stay ==> r.trueX + r.offsetX >= 0 && r.trueY + r.offsetY >= 0
    ensures stay && width <= env.boxWidth ==> r.trueX + r.offsetX + width <= env.boxWidth
    ensures stay && height <= env.boxHeight ==> r.trueY + r.offsetY + height <= env.boxHeight
    ensures 0 <= p.trueX + p.offsetX && p.trueX + p.offsetX + width <= env.boxWidth ==> r.trueX == p.trueX
    ensures 0 <= p.trueY + p.offsetY && p.trueY + p.offsetY + height <= env.boxHeight ==> r.trueY == p.trueY
  {
    if stay then
      p.(trueX := ClampAxis(p.trueX, p.offsetX, width, env.boxWidth),
         trueY := ClampAxis(p.trueY, p.offsetY, height, env.boxHeight))
    else p
  }

  /** The end of `updateMovement`: the published position. */
  function Publish(p: Pose): (r: Pose)
    ensures r.x - r.offsetX == r.trueX && r.y - r.offsetY == r.trueY
    ensures r == p.(x := r.x, y := r.y)
  {
    p.(x := p.trueX + p.offsetX, y := p.trueY + p.offsetY)
  }

  /** One call of `updateMovement`. */
  function Frame(p: Pose, rules: Option<seq<Motion>>, stay: bool, width: int, height: int,
                 config: Config, env: FrameEnv): (r: Pose)
    ensures r.x == r.trueX + r.offsetX && r.y == r.trueY + r.offsetY
    ensures r.goalX == p.goalX && r.goalY == p.goalY
    ensures !stay ==> (r.trueX == MoveTowardGoal(p, config.moveDistance).trueX
                       && r.trueY == MoveTowardGoal(p, config.moveDistance).trueY)
    ensures stay ==> r.x >= 0 && r.y >= 0
    ensures stay && width <= env.boxWidth ==> r.x + width <= env.boxWidth
    ensures stay && height <= env.boxHeight ==> r.y + height <= env.boxHeight
  {
    var moved := MoveTowardGoal(p, config.moveDistance);
    var aimed := MotionGoals(moved, rules, config.motionSpeed, env);
    var stepped := StepOffset(aimed);
    Publish(Restrict(stepped, stay, width, height, env))
  }

  /** `Frame` once per entry of `envs`, the goal left as it is. */
  function Run(p: Pose, rules: Option<seq<Motion>>, stay: bool, width: int, height: int,
               config: Config, envs: seq<FrameEnv>): Pose
    decreases |envs|
  {
    if envs == [] then p
    else Run(Frame(p, rules, stay, width, height, config, envs[0]), rules, stay, width, height, config, envs[1..])
  }

  /** Frames a window needs to reach its goal: none when there, one when it
      is far enough to snap, otherwise ceil(distance / 4). */
  function FramesToArrive(p: Pose, moveDistance: Option<int>): nat {
    if Distance(p) == 0 then 0
    else if IsFar(p, moveDistance) then 1
    else (Distance(p) + SlideStep - 1) / SlideStep
  }

  lemma FrameCountdown(p: Pose, moveDistance: Option<int>, q: Pose)
    requires q.trueX == MoveTowardGoal(p, moveDistance).trueX && q.trueY == MoveTowardGoal(p, moveDistance).trueY
    requires q.goalX == p.goalX && q.goalY == p.goalY
    ensures Distance(q) < Distance(p) || Distance(p) == 0
    ensures FramesToArrive(q, moveDistance) == Max(FramesToArrive(p, moveDistance) - 1, 0)
  {
    assert Distance(q) == Distance(MoveTowardGoal(p, moveDistance));
    if Distance(p) > 0 && !IsFar(p, moveDistance) && Distance(q) > 0 {
      assert !IsFar(q, moveDistance);
    }
  }

  /** With a fixed goal and no screen restriction, a window is at its goal
      after exactly `FramesToArrive` frames and stays there: it snaps in one
      frame when far, and otherwise slides 4 pixels a frame. */
  lemma {:induction false} RunArrives(p: Pose, rules: Option<seq<Motion>>, width: int, height: int,
                                      config: Config, envs: seq<FrameEnv>)
    ensures Run(p, rules, false, width, height, config, envs).goalX == p.goalX
    ensures Run(p, rules, false, width, height, config, envs).goalY == p.goalY
    ensures Distance(Run(p, rules, false, width, height, config, envs)) == 0
            <==> |envs| >= FramesToArrive(p, config.moveDistance)
    decreases |envs|
  {
    if envs != [] {
      var q := Frame(p, rules, false, width, height, config, envs[0]);
      FrameCountdown(p, config.moveDistance, q);
      RunArrives(q, rules, width, height, config, envs[1..]);
    }
  }
}
