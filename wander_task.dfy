/** The navigation task that walks a mob to its WALK_TARGET and, when the target moved
    far away, teleports it near the target instead. The mob's brain memories and
    navigator are fields of `Mob`; the path planner's answers, the random draws and the
    world's blocks come in as parameters. */
module WanderTask {
  import opened Common
  import opened WanderSpec

  /** The parts of a mob the task reads and writes. */
  class Mob {
    /** The block position of the mob. */
    var pos: Pos
    // brain memories WALK_TARGET, PATH, CANT_REACH_WALK_TARGET_SINCE and STAYING
    var walkTarget: Option<WalkTarget>
    var pathMemory: Option<Path>
    var cantReachSince: Option<int>
    var staying: bool
    // the navigator's current path and speed
    var navPath: Option<Path>
    var navSpeed: real

    constructor(pos: Pos, walkTarget: Option<WalkTarget>, staying: bool)
      ensures this.pos == pos && this.walkTarget == walkTarget && this.staying == staying
      ensures pathMemory == None && cantReachSince == None && navPath == None && navSpeed == 0.0
    {
      this.pos, this.walkTarget, this.staying := pos, walkTarget, staying;
      pathMemory, cantReachSince := None, None;
      navPath, navSpeed := None, 0.0;
    }
  }

  class WanderOrTeleportToTargetTask {
    /** Bounds on how long one run of the task may last, in ticks. */
    const minRunTime: int
    const maxRunTime: int
    /** Ticks left before the task may start again. */
    var countdown: int
    var path: Option<Path>
    var lookTarget: Option<Pos>
    var speed: real

    ghost predicate Valid()
      reads this
    {
      0 <= countdown < MaxUpdateCountdown
    }

    /** The task with the default run time of 150 to 250 ticks. */
    constructor Default()
      ensures Valid() && minRunTime == 150 && maxRunTime == 250
      ensures countdown == 0 && path == None && lookTarget == None && speed == 0.0
    {
      minRunTime, maxRunTime := 150, 250;
      countdown, path, lookTarget, speed := 0, None, None, 0.0;
    }

    constructor(minRunTime: int, maxRunTime: int)
      ensures Valid() && this.minRunTime == minRunTime && this.maxRunTime == maxRunTime
      ensures countdown == 0 && path == None && lookTarget == None && speed == 0.0
    {
      this.minRunTime, this.maxRunTime := minRunTime, maxRunTime;
      countdown, path, lookTarget, speed := 0, None, None, 0.0;
    }

    /** Plans a path to the walk target at time `time` and reports whether the mob should
        follow one. `plan` holds the planner's answers. */
    method HasFinishedPath(mob: Mob, w: WalkTarget, time: int, plan: Plan) returns (finished: bool)
      modifies this`path, this`speed, mob`cantReachSince
      ensures path == PlannedPath(w, mob.pos, plan) && speed == w.speed
      ensures mob.cantReachSince == CantReachAfter(old(mob.cantReachSince), w, mob.pos, plan, time)
      ensures finished == PathFinished(w, mob.pos, plan)
    {
      path := plan.primary;
      speed := w.speed;
      if HasReached(w, mob.pos) {
        mob.cantReachSince := None;
      } else {
        var reaches := path.Some? && path.value.reachesTarget;
        if reaches {
          mob.cantReachSince := None;
        } else if mob.cantReachSince.None? {
          mob.cantReachSince := Some(time);
        }
        if path.Some? {
          return true;
        }
        // the fallback point near the target and the path to it
        if plan.fallback.Some? {
          path := plan.fallback;
          return true;
        }
      }
      finished := false;
    }

    /** Whether the task starts now: not while the countdown runs (it ticks down), and
        otherwise only for a mob that is not staying, has not reached its walk target
        and has a path. Otherwise the walk target is dropped. */
    method ShouldRun(mob: Mob, time: int, plan: Plan) returns (r: bool)
      requires Valid() && mob.walkTarget.Some?
      modifies this, mob`walkTarget, mob`cantReachSince
      ensures Valid()
      ensures old(countdown) > 0 ==>
        && !r && countdown == old(countdown) - 1
        && path == old(path) && lookTarget == old(lookTarget) && speed == old(speed)
        && mob.walkTarget == old(mob.walkTarget) && mob.cantReachSince == old(mob.cantReachSince)
      ensures old(countdown) == 0 ==>
        var w := old(mob.walkTarget).value;
        var reached := HasReached(w, mob.pos);
        && countdown == 0
        && r == (!reached && !mob.staying && PathFinished(w, mob.pos, plan))
        && (r ==> lookTarget == Some(w.lookTarget) && mob.walkTarget == old(mob.walkTarget))
        && (!r ==> lookTarget == old(lookTarget) && mob.walkTarget == None)
        && (reached ==> mob.cantReachSince == None && path == old(path) && speed == old(speed))
        && (!reached && mob.staying ==>
              mob.cantReachSince == old(mob.cantReachSince) && path == old(path) && speed == old(speed))
        && (!reached && !mob.staying ==>
              && path == PlannedPath(w, mob.pos, plan) && speed == w.speed
              && mob.cantReachSince == CantReachAfter(old(mob.cantReachSince), w, mob.pos, plan, time))
    {
      if countdown > 0 {
        countdown := countdown - 1;
        return false;
      }
      var w := mob.walkTarget.value;
      var reached := HasReached(w, mob.pos);
      var notStaying := !mob.staying;
      r := false;
      if !reached && notStaying {
        r := HasFinishedPath(mob, w, time, plan);
      }
      if r {
        lookTarget := Some(w.lookTarget);
      } else {
        mob.walkTarget := None;
        if reached {
          mob.cantReachSince := None;
        }
      }
    }

    /** The task goes on while it holds a path and a look target, the navigator is
        moving, and the walk target is present and not reached. */
    method ShouldKeepRunning(mob: Mob, navIdle: bool) returns (r: bool)
      ensures r <==> && path.Some? && lookTarget.Some? && !navIdle
                     && mob.walkTarget.Some? && !HasReached(mob.walkTarget.value, mob.pos)
    {
      if path.Some? && lookTarget.Some? {
        r := !navIdle && mob.walkTarget.Some? && !HasReached(mob.walkTarget.value, mob.pos);
      } else {
        r := false;
      }
    }

    /** Remembers the path and starts the navigator along it at the task's speed. */
    method Run(mob: Mob)
      modifies mob`pathMemory, mob`navPath, mob`navSpeed
      ensures mob.pathMemory == path && mob.navPath == path && mob.navSpeed == speed
    {
      mob.pathMemory := path;
      mob.navPath, mob.navSpeed := path, speed;
    }

    /** Ends a run: when the walk target is still present and unreached and the mob is
        near the start of its path, waits `draw` ticks (a draw below 40) before the next
        start; then stops the navigator and drops WALK_TARGET, PATH and the path. */
    method FinishRunning(mob: Mob, nearPathStart: bool, draw: int)
      requires Valid() && 0 <= draw < MaxUpdateCountdown
      modifies this`countdown, this`path, mob`navPath, mob`walkTarget, mob`pathMemory
      ensures Valid()
      ensures countdown ==
        if old(mob.walkTarget).Some? && !HasReached(old(mob.walkTarget).value, mob.pos) && nearPathStart
        then draw else old(countdown)
      ensures mob.navPath == None && mob.walkTarget == None && mob.pathMemory == None && path == None
    {
      if mob.walkTarget.Some? && !HasReached(mob.walkTarget.value, mob.pos) && nearPathStart {
        countdown := draw;
      }
      mob.navPath := None;
      mob.walkTarget := None;
      mob.pathMemory := None;
      path := None;
    }

    /** One tick of a run. The navigator's current path is adopted (and remembered when it
        changed). When the walk target has moved more than 2 blocks from the look target
        and a new path is found, the mob either teleports near the target (teleporting
        allowed and the target out of the configured range, `withinLimit` false) or
        follows the new path. The result is the configuration error raised, if any. */
    method KeepRunning(mob: Mob, time: int, plan: Plan, allowTeleporting: bool, withinLimit: bool,
                       terrain: Terrain, blacklist: seq<string>, draws: seq<Draw>)
      returns (thrown: Option<SafetyError>)
      requires mob.navPath.Some? && lookTarget.Some? ==> mob.walkTarget.Some?
      requires |draws| == TeleportAttempts && DrawsOk(draws)
      modifies this`path, this`lookTarget, this`speed
      modifies mob`pathMemory, mob`navPath, mob`navSpeed, mob`cantReachSince, mob`pos
      ensures var nav := old(mob.navPath);
        var adopted := if old(path) != nav then nav else old(mob.pathMemory);
        var w := old(mob.walkTarget);
        var a := KeepRunningAction(nav, old(lookTarget), w, old(mob.pos), plan, allowTeleporting, withinLimit);
        && (a == Adopt ==>
              && path == nav && lookTarget == old(lookTarget) && speed == old(speed)
              && mob.pathMemory == adopted && mob.navPath == nav && mob.navSpeed == old(mob.navSpeed)
              && mob.cantReachSince == old(mob.cantReachSince) && mob.pos == old(mob.pos) && thrown == None)
        && (a != Adopt ==>
              && path == PlannedPath(w.value, old(mob.pos), plan) && speed == w.value.speed
              && mob.cantReachSince == CantReachAfter(old(mob.cantReachSince), w.value, old(mob.pos), plan, time))
        && (a == Replan ==>
              && lookTarget == old(lookTarget) && mob.pathMemory == adopted && mob.navPath == nav
              && mob.navSpeed == old(mob.navSpeed) && mob.pos == old(mob.pos) && thrown == None)
        && (a == Follow ==>
              && lookTarget == Some(w.value.lookTarget)
              && mob.pathMemory == path && mob.navPath == path && mob.navSpeed == speed
              && mob.pos == old(mob.pos) && thrown == None)
        && (a == Teleport ==>
              var search := TeleportSearch(terrain, blacklist, w.value.lookTarget, draws);
              && lookTarget == Some(w.value.lookTarget)
              && mob.pathMemory == adopted && mob.navPath == nav && mob.navSpeed == old(mob.navSpeed)
              && (search.Err? ==> thrown == Some(search.error) && mob.pos == old(mob.pos))
              && (search == Ok(None) ==> thrown == None && mob.pos == old(mob.pos))
              && (search.Ok? && search.value.Some? ==>
                    thrown == None && mob.pos == Candidate(w.value.lookTarget, draws[search.value.value])))
    {
      thrown := None;
      var nav := mob.navPath;
      if path != nav {
        path := nav;
        mob.pathMemory := nav;
      }
      if nav.Some? && lookTarget.Some? {
        var w := mob.walkTarget.value;
        if QuadrupledBlockDistance(w.lookTarget, lookTarget.value) > 4 * RetargetSquaredDistance {
          var finished := HasFinishedPath(mob, w, time, plan);
          if finished {
            lookTarget := Some(w.lookTarget);
            if allowTeleporting && !withinLimit {
              thrown := TryTeleport(mob, w.lookTarget, terrain, blacklist, draws);
            } else {
              Run(mob);
            }
          }
        }
      }
    }

    /** Up to ten random candidates around `target`, stopping at the first one the mob
        is moved to; the result is the configuration error raised, if any. */
    method TryTeleport(mob: Mob, target: Pos, terrain: Terrain, blacklist: seq<string>, draws: seq<Draw>)
      returns (thrown: Option<SafetyError>)
      requires |draws| == TeleportAttempts && DrawsOk(draws)
      modifies mob`pos
      ensures var r := TeleportSearch(terrain, blacklist, target, draws);
        && (r.Err? ==> thrown == Some(r.error) && mob.pos == old(mob.pos))
        && (r == Ok(None) ==> thrown == None && mob.pos == old(mob.pos))
        && (r.Ok? && r.value.Some? ==> thrown == None && mob.pos == Candidate(target, draws[r.value.value]))
    {
      var i := 0;
      while i < TeleportAttempts
        invariant 0 <= i <= TeleportAttempts
        invariant mob.pos == old(mob.pos)
        invariant SearchFrom(terrain, blacklist, target, draws, i) == TeleportSearch(terrain, blacklist, target, draws)
      {
        var d := draws[i];
        var dx := RandomInt(d.rx, -3, 3);
        var dy := RandomInt(d.ry, -1, 1);
        var dz := RandomInt(d.rz, -3, 3);
        var landed := TryTeleportTo(mob, target, target.x + dx, target.y + dy, target.z + dz, terrain, blacklist);
        if landed.Err? {
          return Some(landed.error);
        }
        if landed.value {
          return None;
        }
        i := i + 1;
      }
      thrown := None;
    }

    /** One attempt at tile (x, y, z): refused within two blocks of the target on both
        horizontal axes or where the mob may not land; otherwise the mob is moved there. */
    method TryTeleportTo(mob: Mob, target: Pos, x: int, y: int, z: int, terrain: Terrain, blacklist: seq<string>)
      returns (r: Result<bool, SafetyError>)
      modifies mob`pos
      ensures r == TeleportAttempt(terrain, blacklist, target, Pos(x, y, z))
      ensures r == Ok(true) ==> mob.pos == Pos(x, y, z)
      ensures r != Ok(true) ==> mob.pos == old(mob.pos)
    {
      if Abs(x - target.x) < 2 && Abs(z - target.z) < 2 {
        return Ok(false);
      }
      var can := CanTeleportTo(Pos(x, y, z), terrain, blacklist);
      if can.Err? {
        return can;
      }
      if !can.value {
        return Ok(false);
      }
      mob.pos := Pos(x, y, z);
      r := Ok(true);
    }

    /** The mob may land on `pos`: a walkable node, over a block that is not blacklisted,
        with room for the mob. */
    method CanTeleportTo(pos: Pos, terrain: Terrain, blacklist: seq<string>) returns (r: Result<bool, SafetyError>)
      ensures r == CanTeleport(terrain, blacklist, pos)
      ensures r == Ok(true) ==> terrain.walkable(pos) && terrain.spaceEmpty(pos)
    {
      if !terrain.walkable(pos) {
        return Ok(false);
      }
      var safe := IsAreaSafe(terrain.blockAt(Below(pos)), terrain.tags, blacklist);
      if safe.Err? {
        return safe;
      }
      if !safe.value {
        return Ok(false);
      }
      r := Ok(terrain.spaceEmpty(pos));
    }

    /** Scans the blacklist for block `block`: an entry equal to its id, or a "#tag"
        entry for a known tag holding it, makes it unsafe; a "#tag" entry for an
        unknown tag, or an empty entry, raises an error. */
    method IsAreaSafe(block: string, tags: map<string, set<string>>, blacklist: seq<string>) returns (r: Result<bool, SafetyError>)
      ensures r == AreaSafe(blacklist, block, tags)
    {
      var i := 0;
      while i < |blacklist|
        invariant 0 <= i <= |blacklist|
        invariant AreaSafeFrom(blacklist, i, block, tags) == AreaSafe(blacklist, block, tags)
      {
        var entry := blacklist[i];
        if entry == block {
          return Ok(false);
        } else if |entry| == 0 {
          return Err(EmptyEntry);
        } else if entry[0] == '#' {
          var name := TagName(entry[1..]);
          if name in tags {
            if block in tags[name] {
              return Ok(false);
            }
          } else {
            return Err(UnknownTag(name));
          }
        }
        i := i + 1;
      }
      r := Ok(true);
    }
  }
}
