/** The residency controller of one villager, in the form the villager entity runs it:
    tracked ids and memories updated in place, and a shared `World` holding the village
    registry and the bed tickets. Every state-changing method is proved to do exactly
    what the matching function of `ResidencySpec` describes; the properties of those
    functions are in `ResidencyProperties`. */
module Residency {
  import opened Common
  import opened Settlement
  import Spec = ResidencySpec

  /** The shared data the controller mutates: the village registry and the bed tiles
      whose single ticket is held. */
  class World {
    var villages: map<int, Village>
    var tickets: set<Pos>

    constructor(villages: map<int, Village>, tickets: set<Pos>)
      ensures this.villages == villages && this.tickets == tickets
    {
      this.villages := villages;
      this.tickets := tickets;
    }
  }

  class Residency {
    const world: World
    // tracked values of the entity
    var villageId: int
    var buildingId: int
    var hangout: Pos
    // brain memories HOME and JOB_SITE
    var home: Option<GlobalPos>
    var jobSite: Option<GlobalPos>
    // the villager brain's mood and per-player hearts
    var mood: int
    var hearts: map<PlayerId, int>

    /** A fresh villager: no village, no building, hangout at the origin, no memories. */
    constructor(world: World)
      ensures this.world == world
      ensures villageId == Spec.Unset && buildingId == Spec.Unset && hangout == Origin
      ensures home == None && jobSite == None && mood == 0 && hearts == map[]
    {
      this.world := world;
      villageId, buildingId, hangout := Spec.Unset, Spec.Unset, Origin;
      home, jobSite := None, None;
      mood, hearts := 0, map[];
    }

    /** The whole state the controller works on. */
    function Snapshot(): Spec.State
      reads this, world
    {
      Spec.State(villageId, buildingId, hangout, home, jobSite, mood, hearts, world.villages, world.tickets)
    }

    /** The remembered job site, or the origin when there is none. */
    function Workplace(): (p: Pos)
      reads this
      ensures jobSite.Some? ==> p == jobSite.value.pos
      ensures jobSite.None? ==> p == Origin
    {
      if jobSite.Some? then jobSite.value.pos else Origin
    }

    /** Remembers the player's position (in the player's world) as the job site. */
    method SetWorkplace(playerDimension: int, playerPos: Pos) returns (msg: string)
      modifies this
      ensures msg == Spec.MsgSetWorkplace
      ensures Snapshot() == old(Snapshot()).(jobSite := Some(GlobalPos(playerDimension, playerPos)))
      ensures Workplace() == playerPos
    {
      msg := Spec.MsgSetWorkplace;
      jobSite := Some(GlobalPos(playerDimension, playerPos));
    }

    /** The tracked hangout tile. */
    function Hangout(): (p: Pos)
      reads this
      ensures p == hangout
    {
      hangout
    }

    /** Makes the player's position the hangout. */
    method SetHangout(playerPos: Pos) returns (msg: string)
      modifies this
      ensures msg == Spec.MsgSetHangout
      ensures Snapshot() == old(Snapshot()).(hangout := playerPos)
      ensures Hangout() == playerPos
    {
      msg := Spec.MsgSetHangout;
      hangout := playerPos;
    }

    method SetBuildingId(id: int)
      modifies this
      ensures Snapshot() == old(Snapshot()).(buildingId := id)
    {
      buildingId := id;
    }

    method SetVillageId(id: int)
      modifies this
      ensures Snapshot() == old(Snapshot()).(villageId := id)
    {
      villageId := id;
    }

    /** The village the villager claims, when it still exists. */
    function HomeVillage(): (r: Option<Village>)
      reads this, world
      ensures r.Some? <==> villageId in world.villages
      ensures r.Some? ==> r.value == world.villages[villageId]
    {
      if villageId in world.villages then Some(world.villages[villageId]) else None
    }

    /** The HOME memory, if any. */
    function Home(): (h: Option<GlobalPos>)
      reads this
      ensures h == home
    {
      home
    }

    /** Takes the villager out of its building's resident set. */
    method LeaveHome(e: Spec.Env)
      modifies world
      ensures Snapshot() == Spec.LeaveHome(old(Snapshot()), e)
    {
      if villageId in world.villages {
        var village := world.villages[villageId];
        if buildingId in village.buildings {
          var b := village.buildings[buildingId];
          world.villages := world.villages[villageId := village.(buildings := village.buildings[buildingId := b.(residents := b.residents - {e.self})])];
        }
      }
    }

    /** Releases the ticket of the remembered bed if that tile is still a HOME point of
        interest; the HOME memory is kept. */
    method ClearBed(e: Spec.Env)
      modifies world
      ensures Snapshot() == Spec.ClearBed(old(Snapshot()), e)
    {
      if home.Some? && e.isHomePoi(home.value.pos) {
        world.tickets := world.tickets - {home.value.pos};
      }
    }

    /** Moves into building `bid` of village `vid` with bed `bed`. */
    method SetBed(vid: int, bid: int, bed: Pos, e: Spec.Env)
      requires vid in world.villages && bid in world.villages[vid].buildings
      modifies this, world
      ensures Snapshot() == Spec.SetBed(old(Snapshot()), vid, bid, bed, e)
    {
      ClearBed(e);
      if e.isBed(bed) {
        home := Some(GlobalPos(e.dimension, bed));
        if e.isHomePoi(bed) {
          world.tickets := world.tickets + {bed};
        }
      }
      SetBuildingId(bid);
      world.villages := world.villages[vid := world.villages[vid].AddResident(e.self, bid)];
    }

    /** Takes the first open bed of building `bid`, if there is one. */
    method SeekNewHomeIn(vid: int, bid: int, e: Spec.Env) returns (found: bool)
      requires vid in world.villages && bid in world.villages[vid].buildings
      modifies this, world
      ensures (found, Snapshot()) == Spec.SeekNewHomeIn(old(Snapshot()), vid, bid, e)
    {
      var bed := e.openBed(world.villages[vid].buildings[bid]);
      found := bed.Some?;
      if found {
        SetBed(vid, bid, bed.value, e);
      }
    }

    /** Takes the open bed of building `bid` closest to `pos`, if there is one. */
    method SeekClosestHomeIn(vid: int, bid: int, pos: Pos, e: Spec.Env) returns (found: bool)
      requires vid in world.villages && bid in world.villages[vid].buildings
      modifies this, world
      ensures (found, Snapshot()) == Spec.SeekClosestHomeIn(old(Snapshot()), vid, bid, pos, e)
    {
      var bed := e.closestOpenBed(world.villages[vid].buildings[bid], pos);
      found := bed.Some?;
      if found {
        SetBed(vid, bid, bed.value, e);
      }
    }

    /** Goes through the free buildings of the villager's village in shuffled order and
        stops at the first one that yields a bed. */
    method SeekNewHome(e: Spec.Env) returns (found: bool)
      requires Spec.EnvOk(e) && villageId in world.villages
      modifies this, world
      ensures (found, Snapshot()) == Spec.SeekNewHome(old(Snapshot()), e)
    {
      var vid := villageId;
      var buildings := e.shuffle(Spec.FreeBuildings(world.villages[vid], e));
      assert Spec.Permutes(buildings, Spec.FreeBuildings(world.villages[vid], e));
      var i := 0;
      while i < |buildings|
        invariant 0 <= i <= |buildings|
        invariant Snapshot() == old(Snapshot())
        invariant Spec.SeekIn(old(Snapshot()), vid, buildings[i..], e) == Spec.SeekNewHome(old(Snapshot()), e)
      {
        assert buildings[i] in buildings;
        found := SeekNewHomeIn(vid, buildings[i], e);
        if found {
          return;
        }
        i := i + 1;
      }
      found := false;
    }

    /** The ledger exchange of the validation phase: pending mood in, pending hearts in
        for every player, then every player's reputation of this villager out. */
    method SyncLedgers(e: Spec.Env)
      requires villageId in world.villages
      modifies this, world
      ensures Snapshot() == Spec.SyncLedgers(old(Snapshot()), e)
    {
      var village := world.villages[villageId];
      var popped := village.PopMood();
      village := popped.1;
      if popped.0 != 0 {
        mood := mood + popped.0;
      }
      var h := hearts;
      ghost var v1, h1 := village, h;
      for i := 0 to |e.players|
        invariant (village, h) == Spec.PopAllHearts(v1, h1, e.players[..i])
      {
        var p := e.players[i];
        var rep := village.PopHearts(p);
        village := rep.1;
        if rep.0 != 0 {
          h := h[p := Spec.Hearts(h, p) + rep.0];
        }
        assert e.players[..i + 1][..i] == e.players[..i];
      }
      assert e.players[..|e.players|] == e.players;
      ghost var v2 := village;
      for i := 0 to |e.players|
        invariant village == Spec.PushReputation(v2, h, e.players[..i], e.self)
      {
        var p := e.players[i];
        village := village.SetReputation(p, e.self, Spec.Hearts(h, p));
        assert e.players[..i + 1][..i] == e.players[..i];
      }
      hearts := h;
      world.villages := world.villages[villageId := village];
    }

    /** One tick at entity age `age`. Building reports to the settlement scanner are not
        part of this model. */
    method Tick(age: int, e: Spec.Env)
      requires Spec.EnvOk(e)
      modifies this, world
      ensures Snapshot() == Spec.Tick(old(Snapshot()), age, e)
    {
      if age % Spec.SeekHomeInterval == 0 {
        // a villager without a village adopts the nearest one
        if villageId == Spec.Unset && e.nearestVillage.Some? {
          SetVillageId(e.nearestVillage.value);
        }
        // and without a house looks for one, or forgets a village that is gone
        if buildingId == Spec.Unset {
          if villageId in world.villages {
            var _ := SeekNewHome(e);
          } else {
            SetVillageId(Spec.Unset);
          }
        }
        // a building without a bed is given up
        if buildingId != Spec.Unset {
          if home.None? {
            if villageId in world.villages {
              world.villages := world.villages[villageId := world.villages[villageId].RemoveResident(e.self)];
            }
            SetBuildingId(Spec.Unset);
          }
        }
      }
      assert Snapshot() == if age % Spec.SeekHomeInterval == 0 then Spec.Phase600(old(Snapshot()), e) else old(Snapshot());
      if age % Spec.ValidateInterval == 0 {
        if villageId !in world.villages {
          SetBuildingId(Spec.Unset);
          SetVillageId(Spec.Unset);
          ClearBed(e);
        } else if !Spec.LivesIn(Snapshot(), e) {
          SetBuildingId(Spec.Unset);
          ClearBed(e);
        } else {
          SyncLedgers(e);
        }
      }
    }

    /** Sets the home at the building under the player. `nearest` is the village nearest
        to the player and `buildingAt` the building at the player's position (both world
        queries); the result is the message sent to the player, if any. */
    method SetHome(nearest: Option<int>, buildingAt: Option<int>, playerPos: Pos, e: Spec.Env) returns (msg: Option<string>)
      modifies this, world
      ensures (msg, Snapshot()) == Spec.SetHome(old(Snapshot()), nearest, buildingAt, playerPos, e)
    {
      msg := None;
      if nearest.Some? && nearest.value in world.villages {
        if buildingAt.Some? && buildingAt.value in world.villages[nearest.value].buildings {
          var found := SeekClosestHomeIn(nearest.value, buildingAt.value, playerPos, e);
          msg := Some(if found then Spec.MsgSetHomeSuccess else Spec.MsgSetHomeBedFail);
        } else {
          msg := Some(Spec.MsgSetHomeFail);
        }
      }
    }

    /** Walks home when HOME is remembered in the villager's own world: the result is
        the message for the player and the tile the villager is sent towards. */
    method GoHome(e: Spec.Env) returns (msg: string, moveTo: Option<Pos>)
      ensures home.Some? && home.value.dimension == e.dimension ==>
        msg == Spec.MsgGoHomeSuccess && moveTo == Some(home.value.pos)
      ensures home.None? || home.value.dimension != e.dimension ==>
        msg == Spec.MsgGoHomeNoHome && moveTo == None
    {
      if home.Some? && home.value.dimension == e.dimension {
        moveTo := Some(home.value.pos);
        msg := Spec.MsgGoHomeSuccess;
      } else {
        moveTo := None;
        msg := Spec.MsgGoHomeNoHome;
      }
    }
  }
}
