/** What the residency controller guarantees, stated over the transition functions of
    `ResidencySpec`. */
module ResidencyProperties {
  import opened Common
  import opened Settlement
  import opened ResidencySpec

  /** A villager without a village has no building either. */
  predicate Consistent(s: State) {
    s.villageId == Unset ==> s.buildingId == Unset
  }

  /** Every bed the bed queries return belongs to the building they were asked about. */
  ghost predicate BedQueriesOk(e: Env) {
    && (forall b: Building :: e.openBed(b).Some? ==> e.openBed(b).value in b.beds)
    && (forall b: Building, p: Pos :: e.closestOpenBed(b, p).Some? ==> e.closestOpenBed(b, p).value in b.beds)
  }

  // ----- cadence -----

  lemma MultipleOf1200IsMultipleOf600(age: int)
    requires age % ValidateInterval == 0
    ensures age % SeekHomeInterval == 0
  {
    var k := age / ValidateInterval;
    assert age == SeekHomeInterval * (2 * k);
  }

  /** The 600-tick phase runs only on multiples of 600, the 1200-tick phase only on
      multiples of 1200, and on a multiple of 1200 both run, the 600-tick phase first. */
  lemma TickCadence(s: State, age: int, e: Env)
    requires EnvOk(e)
    ensures age % SeekHomeInterval != 0 ==> Tick(s, age, e) == s
    ensures age % SeekHomeInterval == 0 && age % ValidateInterval != 0 ==> Tick(s, age, e) == Phase600(s, e)
    ensures age % ValidateInterval == 0 ==> Tick(s, age, e) == Phase1200(Phase600(s, e), e)
  {
    if age % ValidateInterval == 0 {
      MultipleOf1200IsMultipleOf600(age);
    }
  }

  // ----- beds -----

  /** Clearing the bed releases the remembered bed's ticket exactly when HOME is
      remembered and that tile is a HOME point of interest, and never forgets HOME. */
  lemma ClearBedEffects(s: State, e: Env)
    ensures ClearBed(s, e).home == s.home
    ensures ClearBed(s, e).(tickets := s.tickets) == s
    ensures s.home.Some? && e.isHomePoi(s.home.value.pos) ==> ClearBed(s, e).tickets == s.tickets - {s.home.value.pos}
    ensures s.home.None? || !e.isHomePoi(s.home.value.pos) ==> ClearBed(s, e).tickets == s.tickets
  {
  }

  /** Setting a bed releases the old ticket first; HOME and the new ticket are recorded
      only for a bed-tagged tile, while the building id and the resident entry are
      recorded whatever the tile is. Nothing else changes. */
  lemma SetBedEffects(s: State, vid: int, bid: int, bed: Pos, e: Env)
    requires vid in s.villages && bid in s.villages[vid].buildings
    ensures var t := SetBed(s, vid, bid, bed, e);
      && t.buildingId == bid
      && t.villageId == s.villageId
      && t.home == (if e.isBed(bed) then Some(GlobalPos(e.dimension, bed)) else s.home)
      && t.tickets == (if e.isBed(bed) then ReserveTicket(ClearBed(s, e).tickets, bed, e) else ClearBed(s, e).tickets)
      && (e.isBed(bed) && e.isHomePoi(bed) ==> bed in t.tickets)
      && t.villages == s.villages[vid := s.villages[vid].AddResident(e.self, bid)]
      && e.self in t.villages[vid].buildings[bid].residents
      && SameLayout(s.villages, t.villages)
      && t.mood == s.mood && t.hearts == s.hearts && t.hangout == s.hangout && t.jobSite == s.jobSite
  {
  }

  /** The tolerated inconsistency: a bed that is not bed-tagged still moves the villager
      into the building, while the old HOME memory stays behind with its ticket released. */
  lemma SetBedOnNonBedKeepsStaleHome(s: State, vid: int, bid: int, bed: Pos, e: Env)
    requires vid in s.villages && bid in s.villages[vid].buildings
    requires !e.isBed(bed) && s.home.Some? && e.isHomePoi(s.home.value.pos)
    ensures var t := SetBed(s, vid, bid, bed, e);
      && t.home == s.home
      && s.home.value.pos !in t.tickets
      && t.buildingId == bid
      && e.self in t.villages[vid].buildings[bid].residents
  {
  }

  // ----- seeking a home -----

  /** Index of the first building in `order` that yields an open bed, or `|order|`. */
  function FirstWithBed(v: Village, order: seq<int>, e: Env): (k: nat)
    requires forall i :: 0 <= i < |order| ==> order[i] in v.buildings
    ensures k <= |order|
    ensures forall j :: 0 <= j < k ==> e.openBed(v.buildings[order[j]]).None?
    ensures k < |order| ==> e.openBed(v.buildings[order[k]]).Some?
    decreases |order|
  {
    if order == [] then 0
    else if e.openBed(v.buildings[order[0]]).Some? then 0
    else 1 + FirstWithBed(v, order[1..], e)
  }

  /** The search stops at the first building with an open bed and sets that bed; when
      no building has one it changes nothing. */
  lemma {:induction false} SeekInFirstMatch(s: State, vid: int, order: seq<int>, e: Env)
    requires vid in s.villages && forall i :: 0 <= i < |order| ==> order[i] in s.villages[vid].buildings
    ensures var v := s.villages[vid];
      var k := FirstWithBed(v, order, e);
      var r := SeekIn(s, vid, order, e);
      && (r.0 <==> k < |order|)
      && (k == |order| ==> r.1 == s)
      && (k < |order| ==> r.1 == SetBed(s, vid, order[k], e.openBed(v.buildings[order[k]]).value, e))
  {
    var v := s.villages[vid];
    if order != [] && e.openBed(v.buildings[order[0]]).None? {
      SeekInFirstMatch(s, vid, order[1..], e);
      var k' := FirstWithBed(v, order[1..], e);
      assert FirstWithBed(v, order, e) == 1 + k';
      assert k' < |order[1..]| ==> order[1..][k'] == order[1 + k'];
    }
  }

  /** Seeking a new home considers only buildings with free space, claims a bed exactly
      when one of them has an open bed, and otherwise changes nothing. */
  lemma SeekNewHomeOutcome(s: State, e: Env)
    requires EnvOk(e) && s.villageId in s.villages
    ensures var v := s.villages[s.villageId];
      var r := SeekNewHome(s, e);
      && (r.0 <==> exists b :: b in FreeBuildings(v, e) && e.openBed(v.buildings[b]).Some?)
      && (!r.0 ==> r.1 == s)
      && (r.0 ==>
            && r.1.buildingId in FreeBuildings(v, e)
            && e.openBed(v.buildings[r.1.buildingId]).Some?
            && r.1 == SetBed(s, s.villageId, r.1.buildingId, e.openBed(v.buildings[r.1.buildingId]).value, e))
  {
    var v := s.villages[s.villageId];
    var free := FreeBuildings(v, e);
    var order := e.shuffle(free);
    assert Permutes(order, free);
    forall i | 0 <= i < |order|
      ensures order[i] in v.buildings
    {
      assert order[i] in order;
      assert Permutes(order, free);
      assert forall b :: b in order <==> b in free;
      assert order[i] in free;
    }
    SeekInFirstMatch(s, s.villageId, order, e);
    var k := FirstWithBed(v, order, e);
    if k < |order| {
      SetBedEffects(s, s.villageId, order[k], e.openBed(v.buildings[order[k]]).value, e);
      assert order[k] in free;
    } else {
      forall b | b in free
        ensures e.openBed(v.buildings[b]).None?
      {
        assert b in order;
        var j :| 0 <= j < |order| && order[j] == b;
      }
    }
  }

  /** A home found by seeking is a bed of the building the villager moves into. */
  lemma SeekNewHomeClaimsBedOfBuilding(s: State, e: Env)
    requires EnvOk(e) && BedQueriesOk(e) && s.villageId in s.villages
    requires SeekNewHome(s, e).0
    ensures var t := SeekNewHome(s, e).1;
      && s.villageId in t.villages
      && t.buildingId in t.villages[s.villageId].buildings
      && (t.home != s.home ==> t.home.Some? && t.home.value.pos in t.villages[s.villageId].buildings[t.buildingId].beds)
  {
    SeekNewHomeOutcome(s, e);
    var v := s.villages[s.villageId];
    var t := SeekNewHome(s, e).1;
    var bed := e.openBed(v.buildings[t.buildingId]).value;
    SetBedEffects(s, s.villageId, t.buildingId, bed, e);
  }

  // ----- the 600-tick phase -----

  /** Without a building and without an existing village the villager forgets its
      village id and seeks no home. */
  lemma Phase600DropsMissingVillage(s: State, e: Env)
    requires EnvOk(e) && s.buildingId == Unset
    requires (if s.villageId == Unset && e.nearestVillage.Some? then e.nearestVillage.value else s.villageId) !in s.villages
    ensures Phase600(s, e) == s.(villageId := Unset)
  {
  }

  /** Only a villager without a village adopts one: it then ends the phase in the
      nearest village when that village exists, and stays without one when none is
      near; a villager whose village exists keeps it. */
  lemma Phase600Adopts(s: State, e: Env)
    requires EnvOk(e)
    ensures s.villageId == Unset && e.nearestVillage.Some? && e.nearestVillage.value in s.villages ==>
      Phase600(s, e).villageId == e.nearestVillage.value
    ensures s.villageId == Unset && e.nearestVillage.None? ==> Phase600(s, e).villageId == Unset
    ensures s.villageId != Unset && s.villageId in s.villages ==> Phase600(s, e).villageId == s.villageId
  {
    var a := AdoptNearest(s, e);
    if a.buildingId == Unset && a.villageId in a.villages {
      SeekNewHomeOutcome(a, e);
      var r := SeekNewHome(a, e);
      if r.0 {
        var v := a.villages[a.villageId];
        SetBedEffects(a, a.villageId, r.1.buildingId, e.openBed(v.buildings[r.1.buildingId]).value, e);
      }
    }
  }

  /** Without a building, in an existing (possibly just adopted) village, the villager
      seeks a home; a home found with a HOME memory is kept, one found on a tile that set
      no HOME is given up again by the bedless check, and no home found leaves only the
      adoption. */
  lemma Phase600Seeks(s: State, e: Env)
    requires EnvOk(e) && RegistryOk(s.villages) && s.buildingId == Unset
    requires AdoptNearest(s, e).villageId in s.villages
    ensures var a := AdoptNearest(s, e);
      var r := SeekNewHome(a, e);
      var t := Phase600(s, e);
      && a.villageId in r.1.villages
      && (!r.0 ==> t == a)
      && (r.0 && r.1.home.Some? ==> t == r.1 && t.buildingId != Unset)
      && (r.0 && r.1.home.None? ==>
            && t.buildingId == Unset && t.villageId == a.villageId
            && t.villages == r.1.villages[a.villageId := r.1.villages[a.villageId].RemoveResident(e.self)])
  {
    var a := AdoptNearest(s, e);
    SeekNewHomeOutcome(a, e);
    var r := SeekNewHome(a, e);
    if r.0 {
      var v := a.villages[a.villageId];
      SetBedEffects(a, a.villageId, r.1.buildingId, e.openBed(v.buildings[r.1.buildingId]).value, e);
    }
  }

  /** A villager that has a building but no HOME memory leaves the residents of its
      (adopted) village and gives up the building id; HOME and tickets stay as they were. */
  lemma Phase600EvictsBedless(s: State, e: Env)
    requires EnvOk(e) && s.buildingId != Unset && s.home.None?
    ensures var vid := if s.villageId == Unset && e.nearestVillage.Some? then e.nearestVillage.value else s.villageId;
      var t := Phase600(s, e);
      && t.buildingId == Unset
      && t.villageId == vid
      && t.home == None && t.tickets == s.tickets
      && (vid in s.villages ==> t.villages == s.villages[vid := s.villages[vid].RemoveResident(e.self)])
      && (vid !in s.villages ==> t.villages == s.villages)
  {
  }

  /** The 600-tick phase keeps a consistent villager consistent and never adds or removes
      villages or buildings. */
  lemma Phase600KeepsConsistent(s: State, e: Env)
    requires EnvOk(e) && RegistryOk(s.villages) && Consistent(s)
    ensures Consistent(Phase600(s, e))
    ensures SameLayout(s.villages, Phase600(s, e).villages)
  {
    var adopted := AdoptNearest(s, e);
    if adopted.buildingId == Unset && adopted.villageId in adopted.villages {
      SeekNewHomeOutcome(adopted, e);
      var r := SeekNewHome(adopted, e);
      if r.0 {
        var v := adopted.villages[adopted.villageId];
        SetBedEffects(adopted, adopted.villageId, r.1.buildingId, e.openBed(v.buildings[r.1.buildingId]).value, e);
      }
    }
  }

  // ----- the 1200-tick phase -----

  /** Pops every listed player's pending hearts into the villager's memories, exactly once
      per player even when a player is listed twice. */
  lemma {:induction false} PopAllHeartsEffect(v: Village, h: map<PlayerId, int>, players: seq<PlayerId>)
    ensures var r := PopAllHearts(v, h, players);
      && r.0.pendingHearts == v.pendingHearts - (set p | p in players)
      && r.0.(pendingHearts := v.pendingHearts) == v
      && forall p :: Hearts(r.1, p) == Hearts(h, p) + (if p in players then v.PendingHearts(p) else 0)
    decreases |players|
  {
    if players != [] {
      var init, q := players[..|players| - 1], players[|players| - 1];
      assert players == init + [q];
      PopAllHeartsEffect(v, h, init);
      var prev := PopAllHearts(v, h, init);
      var r := PopAllHearts(v, h, players);
      assert r == PopHeartsStep(prev, q);
      assert (set p | p in players) == (set p | p in init) + {q};
      assert prev.0.PendingHearts(q) == (if q in init then 0 else v.PendingHearts(q));
      forall p
        ensures Hearts(r.1, p) == Hearts(h, p) + (if p in players then v.PendingHearts(p) else 0)
      {
        assert p in players <==> p in init || p == q;
      }
    }
  }

  /** Writes each listed player's current hearts into the reputation ledger under this
      villager, and touches no other entry and no other part of the village. */
  lemma {:induction false} PushReputationEffect(v: Village, h: map<PlayerId, int>, players: seq<PlayerId>, u: Uuid)
    ensures var r := PushReputation(v, h, players, u);
      && r.(reputation := v.reputation) == v
      && (forall p :: p in players ==> RepKey(p, u) in r.reputation && r.reputation[RepKey(p, u)] == Hearts(h, p))
      && (forall k :: k in v.reputation && !(k.villager == u && k.player in players) ==>
            k in r.reputation && r.reputation[k] == v.reputation[k])
      && r.reputation.Keys == v.reputation.Keys + (set p | p in players :: RepKey(p, u))
    decreases |players|
  {
    if players != [] {
      var init, q := players[..|players| - 1], players[|players| - 1];
      assert players == init + [q];
      PushReputationEffect(v, h, init, u);
      forall p | p in players
        ensures p in init || p == q
      {
      }
      assert (set p | p in players :: RepKey(p, u)) == (set p | p in init :: RepKey(p, u)) + {RepKey(q, u)};
    }
  }

  /** The three outcomes of the validation phase: a vanished village drops both ids, a
      building that no longer lists the villager drops the building id, both clear the
      bed and leave mood, hearts and the ledgers alone. */
  lemma Phase1200Outcomes(s: State, e: Env)
    ensures s.villageId !in s.villages ==>
      var t := Phase1200(s, e);
      && t.villageId == Unset && t.buildingId == Unset
      && t == ClearBed(s, e).(villageId := Unset, buildingId := Unset)
      && t.mood == s.mood && t.hearts == s.hearts && t.villages == s.villages && t.home == s.home
    ensures s.villageId in s.villages && !LivesIn(s, e) ==>
      var t := Phase1200(s, e);
      && t.villageId == s.villageId && t.buildingId == Unset
      && t == ClearBed(s, e).(buildingId := Unset)
      && t.mood == s.mood && t.hearts == s.hearts && t.villages == s.villages && t.home == s.home
  {
  }

  /** With valid residency the validation phase applies the pending mood, moves every
      player's pending hearts into the villager's memories, and then sets each player's
      reputation of the villager to its current hearts. Ids, HOME and tickets stay. */
  lemma Phase1200Sync(s: State, e: Env)
    requires LivesIn(s, e)
    ensures var t := Phase1200(s, e);
      var v := s.villages[s.villageId];
      var w := t.villages[s.villageId];
      && t.mood == s.mood + v.pendingMood
      && w.pendingMood == 0
      && (forall p :: Hearts(t.hearts, p) == Hearts(s.hearts, p) + (if p in e.players then v.PendingHearts(p) else 0))
      && (forall p :: p in e.players ==> p !in w.pendingHearts)
      && (forall p :: p in e.players ==> RepKey(p, e.self) in w.reputation && w.reputation[RepKey(p, e.self)] == Hearts(t.hearts, p))
      && w.buildings == v.buildings
      && t.villages == s.villages[s.villageId := w]
      && t.villageId == s.villageId && t.buildingId == s.buildingId && t.home == s.home && t.tickets == s.tickets
  {
    var v := s.villages[s.villageId];
    var (mood, v1) := v.PopMood();
    var (v2, h) := PopAllHearts(v1, s.hearts, e.players);
    PopAllHeartsEffect(v1, s.hearts, e.players);
    PushReputationEffect(v2, h, e.players, e.self);
  }

  // ----- the whole tick -----

  /** Ticks keep a consistent villager consistent (no village id unset while a building
      id is set) and never add or remove villages or buildings. */
  lemma TickKeepsConsistent(s: State, age: int, e: Env)
    requires EnvOk(e) && RegistryOk(s.villages) && Consistent(s)
    ensures Consistent(Tick(s, age, e))
    ensures SameLayout(s.villages, Tick(s, age, e).villages)
    ensures RegistryOk(Tick(s, age, e).villages)
  {
    var mid := if age % SeekHomeInterval == 0 then Phase600(s, e) else s;
    if age % SeekHomeInterval == 0 {
      Phase600KeepsConsistent(s, e);
    }
    if age % ValidateInterval == 0 && LivesIn(mid, e) {
      Phase1200Sync(mid, e);
    }
  }

  // ----- player-invoked operations -----

  /** Leaving home only removes the villager from its building's residents. */
  lemma LeaveHomeEffects(s: State, e: Env)
    ensures var t := LeaveHome(s, e);
      && t.(villages := s.villages) == s
      && SameLayout(s.villages, t.villages)
      && (s.villageId in s.villages && s.buildingId in s.villages[s.villageId].buildings ==>
            var v := s.villages[s.villageId];
            var b := v.buildings[s.buildingId];
            && e.self !in t.villages[s.villageId].buildings[s.buildingId].residents
            && t.villages == s.villages[s.villageId := v.(buildings := v.buildings[s.buildingId := b.(residents := b.residents - {e.self})])])
      && (s.villageId !in s.villages || s.buildingId !in s.villages[s.villageId].buildings ==> t == s)
  {
  }

  /** Setting a home: no village near the player means no message and no change; no
      building at the player means "fail"; otherwise "success" exactly when the closest
      open bed was claimed, "bedfail" (and no change) when there is none. */
  lemma SetHomeOutcomes(s: State, nearest: Option<int>, buildingAt: Option<int>, pos: Pos, e: Env)
    ensures nearest.None? || nearest.value !in s.villages ==> SetHome(s, nearest, buildingAt, pos, e) == (None, s)
    ensures nearest.Some? && nearest.value in s.villages &&
            (buildingAt.None? || buildingAt.value !in s.villages[nearest.value].buildings) ==>
            SetHome(s, nearest, buildingAt, pos, e) == (Some(MsgSetHomeFail), s)
    ensures nearest.Some? && nearest.value in s.villages &&
            buildingAt.Some? && buildingAt.value in s.villages[nearest.value].buildings ==>
            var bed := e.closestOpenBed(s.villages[nearest.value].buildings[buildingAt.value], pos);
            var r := SetHome(s, nearest, buildingAt, pos, e);
            && (r.0 == Some(MsgSetHomeSuccess) <==> bed.Some?)
            && (r.0 == Some(MsgSetHomeBedFail) <==> bed.None?)
            && (bed.Some? ==> r.1 == SetBed(s, nearest.value, buildingAt.value, bed.value, e) && r.1.buildingId == buildingAt.value)
            && (bed.None? ==> r.1 == s)
  {
  }

  /** Setting a home moves the villager into a building of the village nearest to the
      player without touching its own village id, so a villager without a village ends
      up with a building id and no village id. */
  lemma SetHomeIgnoresVillageId(s: State, nearest: Option<int>, buildingAt: Option<int>, pos: Pos, e: Env)
    requires RegistryOk(s.villages) && s.villageId == Unset
    requires nearest.Some? && nearest.value in s.villages
    requires buildingAt.Some? && buildingAt.value in s.villages[nearest.value].buildings
    requires e.closestOpenBed(s.villages[nearest.value].buildings[buildingAt.value], pos).Some?
    ensures var t := SetHome(s, nearest, buildingAt, pos, e).1;
      t.villageId == Unset && t.buildingId == buildingAt.value && !Consistent(t)
  {
  }
}
