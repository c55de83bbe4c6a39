/** The settlement registry as the residency controller sees it: villages made of
    buildings with resident sets, and each village's shared ledgers (pending mood,
    pending hearts per player, reputation per player and villager). */
module Settlement {
  import opened Common

  type Uuid = int
  type PlayerId = int

  /** Key of the reputation ledger: what `player` thinks of `villager`. */
  datatype RepKey = RepKey(player: PlayerId, villager: Uuid)

  datatype Building = Building(residents: set<Uuid>, beds: set<Pos>)

  datatype Village = Village(
    buildings: map<int, Building>,
    pendingMood: int,
    pendingHearts: map<PlayerId, int>,
    reputation: map<RepKey, int>)
  {
    /** The pending hearts of `p`, zero when nothing is queued. */
    function PendingHearts(p: PlayerId): int {
      if p in pendingHearts then pendingHearts[p] else 0
    }

    /** Lists `u` as a resident of building `bid`; no other building changes. */
    function AddResident(u: Uuid, bid: int): (v: Village)
      requires bid in buildings
      ensures v.buildings.Keys == buildings.Keys
      ensures v.buildings[bid].residents == buildings[bid].residents + {u}
      ensures v.buildings[bid].beds == buildings[bid].beds
      ensures forall b :: b in buildings && b != bid ==> v.buildings[b] == buildings[b]
      ensures v.(buildings := buildings) == this
    {
      this.(buildings := buildings[bid := buildings[bid].(residents := buildings[bid].residents + {u})])
    }

    /** Drops `u` from the residents of every building of the village. */
    function RemoveResident(u: Uuid): (v: Village)
      ensures v.buildings.Keys == buildings.Keys
      ensures forall b :: b in v.buildings ==>
        v.buildings[b].residents == buildings[b].residents - {u} && v.buildings[b].beds == buildings[b].beds
      ensures v.(buildings := buildings) == this
    {
      this.(buildings := map b | b in buildings :: buildings[b].(residents := buildings[b].residents - {u}))
    }

    /** Takes the whole pending mood out of the ledger. */
    function PopMood(): (r: (int, Village))
      ensures r.0 == pendingMood && r.1.pendingMood == 0
      ensures r.1.(pendingMood := pendingMood) == this
    {
      (pendingMood, this.(pendingMood := 0))
    }

    /** Takes the pending hearts of `p` out of the ledger. */
    function PopHearts(p: PlayerId): (r: (int, Village))
      ensures r.0 == PendingHearts(p) && p !in r.1.pendingHearts
      ensures r.1.pendingHearts == pendingHearts - {p}
      ensures r.1.(pendingHearts := pendingHearts) == this
    {
      (PendingHearts(p), this.(pendingHearts := pendingHearts - {p}))
    }

    /** Records that `player` values villager `u` at `hearts` (last write wins). */
    function SetReputation(player: PlayerId, u: Uuid, hearts: int): (v: Village)
      ensures RepKey(player, u) in v.reputation && v.reputation[RepKey(player, u)] == hearts
      ensures forall k :: k in reputation && k != RepKey(player, u) ==> k in v.reputation && v.reputation[k] == reputation[k]
      ensures v.reputation.Keys == reputation.Keys + {RepKey(player, u)}
      ensures v.(reputation := reputation) == this
    {
      this.(reputation := reputation[RepKey(player, u) := hearts])
    }
  }

  /** No village and no building is registered under the "unset" id -1. */
  ghost predicate RegistryOk(villages: map<int, Village>) {
    -1 !in villages && forall vid :: vid in villages ==> -1 !in villages[vid].buildings
  }

  /** Two registries hold the same villages with the same buildings. */
  ghost predicate SameLayout(a: map<int, Village>, b: map<int, Village>) {
    a.Keys == b.Keys && forall vid :: vid in a ==> a[vid].buildings.Keys == b[vid].buildings.Keys
  }
}
