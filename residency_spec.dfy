/** The residency controller as transition functions over one record: the villager's
    tracked ids and memories plus the shared registry and bed tickets. World queries
    (bed lookup, free space, block tags, POI types, nearest village, shuffle) come in
    through `Env`. */
module ResidencySpec {
  import opened Common
  import opened Settlement

  /** Value of an unset village or building id. */
  const Unset: int := -1
  /** Cadence of the adopt / seek-home / evict phase. */
  const SeekHomeInterval: int := 600
  /** Cadence of the validation and ledger-sync phase. */
  const ValidateInterval: int := 1200

  const MsgSetWorkplace := "interaction.setworkplace.success"
  const MsgSetHangout := "interaction.sethangout.success"
  const MsgSetHomeSuccess := "interaction.sethome.success"
  const MsgSetHomeBedFail := "interaction.sethome.bedfail"
  const MsgSetHomeFail := "interaction.sethome.fail"
  const MsgGoHomeSuccess := "interaction.gohome.success"
  const MsgGoHomeNoHome := "interaction.gohome.fail.nohome"

  /** What the controller reads and writes: the villager's tracked values
      (`villageId`, `buildingId`, `hangout`), its HOME and JOB_SITE memories,
      its mood and per-player hearts, the village registry and the held bed tickets. */
  datatype State = State(
    villageId: int,
    buildingId: int,
    hangout: Pos,
    home: Option<GlobalPos>,
    jobSite: Option<GlobalPos>,
    mood: int,
    hearts: map<PlayerId, int>,
    villages: map<int, Village>,
    tickets: set<Pos>)

  /** The villager's identity and world, and the world queries it makes. */
  datatype Env = Env(
    self: Uuid,
    dimension: int,
    players: seq<PlayerId>,
    nearestVillage: Option<int>,
    hasFreeSpace: Building -> bool,
    openBed: Building -> Option<Pos>,
    closestOpenBed: (Building, Pos) -> Option<Pos>,
    isBed: Pos -> bool,
    isHomePoi: Pos -> bool,
    shuffle: set<int> -> seq<int>)

  /** `order` lists exactly the elements of `s`, each once. */
  ghost predicate Permutes(order: seq<int>, s: set<int>) {
    |order| == |s| && forall b :: b in order <==> b in s
  }

  /** The shuffle is a permutation of what it is given. */
  ghost predicate EnvOk(e: Env) {
    forall s: set<int> :: Permutes(e.shuffle(s), s)
  }

  /** The hearts value of a player, zero for a player the villager has no memories of. */
  function Hearts(h: map<PlayerId, int>, p: PlayerId): int {
    if p in h then h[p] else 0
  }

  /** The villager is listed in the building it claims, in the village it claims. */
  predicate LivesIn(s: State, e: Env) {
    && s.villageId in s.villages
    && s.buildingId in s.villages[s.villageId].buildings
    && e.self in s.villages[s.villageId].buildings[s.buildingId].residents
  }

  // ----- beds and tickets -----

  /** Releases the ticket of the remembered bed when that tile is still a HOME point of
      interest; the HOME memory itself stays. */
  function ClearBed(s: State, e: Env): State {
    if s.home.Some? && e.isHomePoi(s.home.value.pos) then s.(tickets := s.tickets - {s.home.value.pos})
    else s
  }

  /** Claims the ticket of a bed tile (capacity one) when it is a HOME point of interest. */
  function ReserveTicket(tickets: set<Pos>, bed: Pos, e: Env): set<Pos> {
    if e.isHomePoi(bed) then tickets + {bed} else tickets
  }

  /** Moves the villager into building `bid` of village `vid` with bed `bed`. */
  function SetBed(s: State, vid: int, bid: int, bed: Pos, e: Env): State
    requires vid in s.villages && bid in s.villages[vid].buildings
  {
    var cleared := ClearBed(s, e);
    var claimed :=
      if e.isBed(bed) then cleared.(home := Some(GlobalPos(e.dimension, bed)), tickets := ReserveTicket(cleared.tickets, bed, e))
      else cleared;
    claimed.(buildingId := bid, villages := claimed.villages[vid := claimed.villages[vid].AddResident(e.self, bid)])
  }

  // ----- seeking a home -----

  /** Tries the first open bed of one building. */
  function SeekNewHomeIn(s: State, vid: int, bid: int, e: Env): (bool, State)
    requires vid in s.villages && bid in s.villages[vid].buildings
  {
    var bed := e.openBed(s.villages[vid].buildings[bid]);
    if bed.Some? then (true, SetBed(s, vid, bid, bed.value, e)) else (false, s)
  }

  /** Tries the open bed closest to `pos` in one building. */
  function SeekClosestHomeIn(s: State, vid: int, bid: int, pos: Pos, e: Env): (bool, State)
    requires vid in s.villages && bid in s.villages[vid].buildings
  {
    var bed := e.closestOpenBed(s.villages[vid].buildings[bid], pos);
    if bed.Some? then (true, SetBed(s, vid, bid, bed.value, e)) else (false, s)
  }

  /** The buildings of `v` that report free space. */
  function FreeBuildings(v: Village, e: Env): (r: set<int>)
    ensures r <= v.buildings.Keys
  {
    set b | b in v.buildings && e.hasFreeSpace(v.buildings[b])
  }

  /** Goes through `order` and stops at the first building that yields an open bed. */
  function SeekIn(s: State, vid: int, order: seq<int>, e: Env): (bool, State)
    requires vid in s.villages && forall b :: b in order ==> b in s.villages[vid].buildings
    decreases |order|
  {
    if order == [] then (false, s)
    else
      var r := SeekNewHomeIn(s, vid, order[0], e);
      if r.0 then r else SeekIn(s, vid, order[1..], e)
  }

  /** Seeks a home among the free buildings of the villager's village, in shuffled order. */
  function SeekNewHome(s: State, e: Env): (bool, State)
    requires EnvOk(e) && s.villageId in s.villages
  {
    var v := s.villages[s.villageId];
    var order := e.shuffle(FreeBuildings(v, e));
    assert Permutes(order, FreeBuildings(v, e));
    SeekIn(s, s.villageId, order, e)
  }

  // ----- the periodic phases -----

  /** A villager without a village takes the id of the nearest village, if any. */
  function AdoptNearest(s: State, e: Env): State {
    if s.villageId == Unset && e.nearestVillage.Some? then s.(villageId := e.nearestVillage.value) else s
  }

  /** Every 600 ticks: adopt the nearest village when there is none, seek a home when
      there is no building (or forget a village that no longer exists), and move out of
      a building whose bed was lost. */
  function Phase600(s: State, e: Env): State
    requires EnvOk(e)
  {
    var adopted := AdoptNearest(s, e);
    var housed :=
      if adopted.buildingId != Unset then adopted
      else if adopted.villageId in adopted.villages then SeekNewHome(adopted, e).1
      else adopted.(villageId := Unset);
    if housed.buildingId != Unset && housed.home.None? then
      var left :=
        if housed.villageId in housed.villages then
          housed.(villages := housed.villages[housed.villageId := housed.villages[housed.villageId].RemoveResident(e.self)])
        else housed;
      left.(buildingId := Unset)
    else housed
  }

  /** One player's pending hearts moved from the village into the villager's memories. */
  function PopHeartsStep(acc: (Village, map<PlayerId, int>), p: PlayerId): (Village, map<PlayerId, int>) {
    var (rep, v) := acc.0.PopHearts(p);
    (v, if rep != 0 then acc.1[p := Hearts(acc.1, p) + rep] else acc.1)
  }

  /** `PopHeartsStep` for each player, in order. */
  function PopAllHearts(v: Village, h: map<PlayerId, int>, players: seq<PlayerId>): (Village, map<PlayerId, int>)
    decreases |players|
  {
    if players == [] then (v, h)
    else PopHeartsStep(PopAllHearts(v, h, players[..|players| - 1]), players[|players| - 1])
  }

  /** The villager's current hearts for each player written into the village's
      reputation ledger, in order. */
  function PushReputation(v: Village, h: map<PlayerId, int>, players: seq<PlayerId>, u: Uuid): Village
    decreases |players|
  {
    if players == [] then v
    else
      var p := players[|players| - 1];
      PushReputation(v, h, players[..|players| - 1], u).SetReputation(p, u, Hearts(h, p))
  }

  /** Mood and hearts in from the village ledgers, reputation out. */
  function SyncLedgers(s: State, e: Env): State
    requires s.villageId in s.villages
  {
    var (mood, v1) := s.villages[s.villageId].PopMood();
    var newMood := if mood != 0 then s.mood + mood else s.mood;
    var (v2, h) := PopAllHearts(v1, s.hearts, e.players);
    var v3 := PushReputation(v2, h, e.players, e.self);
    s.(mood := newMood, hearts := h, villages := s.villages[s.villageId := v3])
  }

  /** Every 1200 ticks: give up a village that is gone, give up a building that no
      longer lists the villager, or else sync the ledgers. */
  function Phase1200(s: State, e: Env): State {
    if s.villageId !in s.villages then ClearBed(s.(buildingId := Unset, villageId := Unset), e)
    else if !LivesIn(s, e) then ClearBed(s.(buildingId := Unset), e)
    else SyncLedgers(s, e)
  }

  /** One tick of the controller at entity age `age`. */
  function Tick(s: State, age: int, e: Env): State
    requires EnvOk(e)
  {
    var afterSeek := if age % SeekHomeInterval == 0 then Phase600(s, e) else s;
    if age % ValidateInterval == 0 then Phase1200(afterSeek, e) else afterSeek
  }

  // ----- player-invoked operations -----

  /** Takes the villager out of its building's resident set; ids and memories stay. */
  function LeaveHome(s: State, e: Env): State {
    if s.villageId in s.villages && s.buildingId in s.villages[s.villageId].buildings then
      var v := s.villages[s.villageId];
      var b := v.buildings[s.buildingId];
      s.(villages := s.villages[s.villageId := v.(buildings := v.buildings[s.buildingId := b.(residents := b.residents - {e.self})])])
    else s
  }

  /** Sets the home at the building under the player: `nearest` is the village nearest
      to the player, `buildingAt` the building at the player's position; the result
      holds the message sent to the player, if any. */
  function SetHome(s: State, nearest: Option<int>, buildingAt: Option<int>, playerPos: Pos, e: Env): (Option<string>, State) {
    if nearest.None? || nearest.value !in s.villages then (None, s)
    else if buildingAt.None? || buildingAt.value !in s.villages[nearest.value].buildings then (Some(MsgSetHomeFail), s)
    else
      var r := SeekClosestHomeIn(s, nearest.value, buildingAt.value, playerPos, e);
      (Some(if r.0 then MsgSetHomeSuccess else MsgSetHomeBedFail), r.1)
  }
}
