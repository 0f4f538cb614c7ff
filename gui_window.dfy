/** A battle window of the Battle GUI Core: the position fields the plugin
    adds to the engine's window and the methods that update them every frame.
    Each method is proved against the matching function of `GuiMotion`. */
module GuiWindow {
  import opened Wrappers
  import opened GuiMotion

  class BattleWindow {
    var x: int
    var y: int
    var width: int
    var height: int
    var trueX: int
    var trueY: int
    var goalX: int
    var goalY: int
    var offsetX: int
    var offsetY: int
    var offsetXGoal: int
    var offsetYGoal: int
    var offsetSpeed: int
    var motionsInfos: Option<seq<Motion>>   // None: no rule list was attached
    var stayWithinScreen: bool

    /** The position fields as one value. */
    function Pose(): Pose
      reads this
    {
      GuiMotion.Pose(x, y, trueX, trueY, goalX, goalY, offsetX, offsetY, offsetXGoal, offsetYGoal, offsetSpeed)
    }

    /** The plugin's part of a window's `initialize`: positions initialised,
        the motion rules of `name` attached if the table has any, and the
        stay-on-screen flag set when `name` is in the force list.  The goal is
        the starting position until the first frame sets it. */
    constructor (name: string, x0: int, y0: int, w: int, h: int, config: Config)
      ensures Pose() == GuiMotion.Pose(x0, y0, x0, y0, x0, y0, 0, 0, 0, 0, 0)
      ensures width == w && height == h
      ensures motionsInfos == if name in config.motions then Some(config.motions[name]) else None
      ensures stayWithinScreen <==> name in config.forceScreens
    {
      x, y, width, height := x0, y0, w, h;
      goalX, goalY := x0, y0;
      motionsInfos := None;
      stayWithinScreen := false;
      new;
      InitializePositions();
      if name in config.motions {
        motionsInfos := Some(config.motions[name]);
      }
      stayWithinScreen := name in config.forceScreens;
    }

    /** `initializePositions`: offsets, offset goals and speed are zero and
        the true position is the current `x`/`y`. */
    method InitializePositions()
      modifies this`offsetX, this`offsetY, this`offsetXGoal, this`offsetYGoal, this`offsetSpeed,
               this`trueX, this`trueY
      ensures offsetX == 0 && offsetY == 0 && offsetXGoal == 0 && offsetYGoal == 0 && offsetSpeed == 0
      ensures trueX == x && trueY == y
    {
      offsetX := 0;
      offsetY := 0;
      offsetXGoal := 0;
      offsetYGoal := 0;
      offsetSpeed := 0;
      trueX := x;
      trueY := y;
    }

    /** The goal assignment of a window's `updatePlacement`. */
    method SetGoal(gx: int, gy: int)
      modifies this`goalX, this`goalY
      ensures goalX == gx && goalY == gy
    {
      goalX := gx;
      goalY := gy;
    }

    /** `instantPlacement`. */
    method InstantPlacement()
      modifies this`trueX, this`trueY
      ensures Pose() == Snapped(old(Pose()))
    {
      trueX := goalX;
      trueY := goalY;
    }

    /** `updateOffsetConditions`. */
    method UpdateOffsetConditions(motionSpeed: string, env: FrameEnv)
      modifies this`offsetXGoal, this`offsetYGoal, this`offsetSpeed
      ensures Pose() == MotionGoals(old(Pose()), motionsInfos, motionSpeed, env)
    {
      if motionsInfos.Some? {
        var rules := motionsInfos.value;
        var isOn := false;
        var i := 0;
        while i < |rules|
          invariant 0 <= i <= |rules|
          invariant forall j :: 0 <= j < i ==> !env.truth(rules[j].condition)
          invariant !isOn && Pose() == old(Pose())
        {
          if env.truth(rules[i].condition) {
            offsetXGoal := env.value(rules[i].x);
            offsetYGoal := env.value(rules[i].y);
            offsetSpeed := env.value(rules[i].speed);
            isOn := true;
            assert FirstOn(rules, env.truth, i);
            break;
          }
          i := i + 1;
        }
        if !isOn {
          offsetXGoal := 0;
          offsetYGoal := 0;
          offsetSpeed := env.value(motionSpeed);
        }
      }
    }

    /** `updateOffset`. */
    method UpdateOffset()
      modifies this`offsetX, this`offsetY
      ensures Pose() == StepOffset(old(Pose()))
    {
      if offsetX < offsetXGoal {
        offsetX := offsetX + offsetSpeed;
        if offsetX > offsetXGoal { offsetX := offsetXGoal; }
      } else if offsetX > offsetXGoal {
        offsetX := offsetX - offsetSpeed;
        if offsetX < offsetXGoal { offsetX := offsetXGoal; }
      }
      if offsetY < offsetYGoal {
        offsetY := offsetY + offsetSpeed;
        if offsetY > offsetYGoal { offsetY := offsetYGoal; }
      } else if offsetY > offsetYGoal {
        offsetY := offsetY - offsetSpeed;
        if offsetY < offsetYGoal { offsetY := offsetYGoal; }
      }
    }

    /** `updateScreenRestrict`: pixel by pixel, left, right, up, down. */
    method UpdateScreenRestrict(env: FrameEnv)
      modifies this`trueX, this`trueY
      ensures Pose() == Restrict(old(Pose()), stayWithinScreen, width, height, env)
    {
      if stayWithinScreen {
        ghost var x0, y0 := trueX, trueY;
        while trueX + offsetX + width > env.boxWidth
          invariant trueY == y0 && trueX <= x0
          invariant trueX < x0 ==> trueX + offsetX + width >= env.boxWidth
          decreases trueX + offsetX + width - env.boxWidth
        {
          trueX := trueX - 1;
        }
        ghost var x1 := trueX;
        while trueX + offsetX < 0
          invariant trueY == y0 && trueX >= x1
          invariant trueX > x1 ==> trueX + offsetX <= 0
          decreases -(trueX + offsetX)
        {
          trueX := trueX + 1;
        }
        ghost var x2 := trueX;
        while trueY + offsetY + height > env.boxHeight
          invariant trueX == x2 && trueY <= y0
          invariant trueY < y0 ==> trueY + offsetY + height >= env.boxHeight
          decreases trueY + offsetY + height - env.boxHeight
        {
          trueY := trueY - 1;
        }
        ghost var y1 := trueY;
        while trueY + offsetY < 0
          invariant trueX == x2 && trueY >= y1
          invariant trueY > y1 ==> trueY + offsetY <= 0
          decreases -(trueY + offsetY)
        {
          trueY := trueY + 1;
        }
      }
    }

    /** The first half of `updateMovement`: snap to the goal when far from
        it, then slide each axis 4 pixels toward it. */
    method MoveTrueTowardGoal(moveDistance: Option<int>)
      modifies this`trueX, this`trueY
      ensures Pose() == MoveTowardGoal(old(Pose()), moveDistance)
    {
      if moveDistance.Some?
         && (Abs(trueX - goalX) > moveDistance.value || Abs(trueY - goalY) > moveDistance.value)
      {
        InstantPlacement();
      }
      ghost var q := Pose();
      assert q == if IsFar(old(Pose()), moveDistance) then Snapped(old(Pose())) else old(Pose());

      if trueX < goalX {
        trueX := trueX + 4;
        if trueX > goalX { trueX := goalX; }
      } else if trueX > goalX {
        trueX := trueX - 4;
        if trueX < goalX { trueX := goalX; }
      }
      assert trueX == Approach(q.trueX, q.goalX, SlideStep);

      if trueY < goalY {
        trueY := trueY + 4;
        if trueY > goalY { trueY := goalY; }
      } else if trueY > goalY {
        trueY := trueY - 4;
        if trueY < goalY { trueY := goalY; }
      }
    }

    /** `updateMovement`: one frame. */
    method UpdateMovement(config: Config, env: FrameEnv)
      modifies this`x, this`y, this`trueX, this`trueY, this`offsetX, this`offsetY,
               this`offsetXGoal, this`offsetYGoal, this`offsetSpeed
      ensures Pose() == Frame(old(Pose()), motionsInfos, stayWithinScreen, width, height, config, env)
    {
      MoveTrueTowardGoal(config.moveDistance);
      UpdateOffsetConditions(config.motionSpeed, env);
      UpdateOffset();
      UpdateScreenRestrict(env);
      x := trueX + offsetX;
      y := trueY + offsetY;
    }
  }
}
