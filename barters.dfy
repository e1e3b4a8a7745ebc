/** The records held by the barters store. Only the fields the slice reads or writes
    are named; every other field of a fetched record (names, icons, trader, level,
    ...) travels along unread in an `attributes` map. */
module Barters {
  import opened Seqs

  /** Item and quest ids are compared with `===`. */
  type Id = string

  /** An item record: as embedded in a fetched barter, or as held by the items store. */
  datatype Item = Item(id: Id, attributes: map<string, string>)

  /** A quest record: as embedded in a fetched barter (`taskUnlock`), or as held by the quests store. */
  datatype Quest = Quest(id: Id, attributes: map<string, string>)

  /** An entry of `requiredItems`. `count == Some(0)` means "toggled off"; `originalCount`
      is `None` until the entry is first toggled off. `count` itself can become `None`:
      toggling back an entry whose `originalCount` was never set copies that absent value. */
  datatype RequiredItem = RequiredItem(
    item: Item,
    count: Option<int>,
    originalCount: Option<int>,
    priceCustom: Option<int>)

  /** An entry of `rewardItems`; its count is never toggled. */
  datatype RewardItem = RewardItem(item: Item, count: int, priceCustom: Option<int>)

  /** A trade offer: the items given up, the items received, and the quest that unlocks it. */
  datatype Barter = Barter(
    requiredItems: seq<RequiredItem>,
    rewardItems: seq<RewardItem>,
    taskUnlock: Option<Quest>,
    attributes: map<string, string>)

  /** The fetch status of the store. */
  datatype Status = Idle | Loading | Succeeded | Failed
}

/** The value each reducer of the barters slice computes: the barters array it stores
    in `state.data`, as a function of the old array and the action's payload. */
module BarterReducers {
  import opened Seqs
  import opened Barters

  // ---- toggleItem ----

  /** What `toggleItem` does to one required entry: a matching entry whose count is 0
      gets its `originalCount` back; any other matching entry saves its count in
      `originalCount` and drops to 0. */
  function ToggleEntry(e: RequiredItem, itemId: Id): (r: RequiredItem)
    ensures r.item == e.item && r.priceCustom == e.priceCustom
    ensures e.item.id != itemId ==> r == e
    ensures e.item.id == itemId && e.count == Some(0) ==>
      r.count == e.originalCount && r.originalCount == e.originalCount
    ensures e.item.id == itemId && e.count != Some(0) ==>
      r.count == Some(0) && r.originalCount == e.count
  {
    if e.item.id != itemId then e
    else if e.count == Some(0) then e.(count := e.originalCount)
    else e.(originalCount := e.count, count := Some(0))
  }

  /** What `toggleItem` does to one barter: only its required entries change. */
  function ToggleInBarter(b: Barter, itemId: Id): (r: Barter)
    ensures r.rewardItems == b.rewardItems && r.taskUnlock == b.taskUnlock && r.attributes == b.attributes
    ensures |r.requiredItems| == |b.requiredItems|
    ensures forall k :: 0 <= k < |b.requiredItems| ==> r.requiredItems[k] == ToggleEntry(b.requiredItems[k], itemId)
  {
    b.(requiredItems := Map(b.requiredItems, (e: RequiredItem) => ToggleEntry(e, itemId)))
  }

  /** The new `state.data` of `toggleItem`: same barters, same order, every entry toggled or kept. */
  function ToggleInData(data: seq<Barter>, itemId: Id): (r: seq<Barter>)
    ensures |r| == |data|
    ensures forall i :: 0 <= i < |data| ==> r[i] == ToggleInBarter(data[i], itemId)
  {
    Map(data, (b: Barter) => ToggleInBarter(b, itemId))
  }

  // ---- setItemCost ----

  /** What `setItemCost` does to one required entry. */
  function CostEntry(e: RequiredItem, itemId: Id, price: int): (r: RequiredItem)
    ensures r.item == e.item && r.count == e.count && r.originalCount == e.originalCount
    ensures r.priceCustom == if e.item.id == itemId then Some(price) else e.priceCustom
  {
    if e.item.id == itemId then e.(priceCustom := Some(price)) else e
  }

  /** What `setItemCost` does to one barter: only its required entries change. */
  function CostInBarter(b: Barter, itemId: Id, price: int): (r: Barter)
    ensures r.rewardItems == b.rewardItems && r.taskUnlock == b.taskUnlock && r.attributes == b.attributes
    ensures |r.requiredItems| == |b.requiredItems|
    ensures forall k :: 0 <= k < |b.requiredItems| ==> r.requiredItems[k] == CostEntry(b.requiredItems[k], itemId, price)
  {
    b.(requiredItems := Map(b.requiredItems, (e: RequiredItem) => CostEntry(e, itemId, price)))
  }

  /** The new `state.data` of `setItemCost`. */
  function CostInData(data: seq<Barter>, itemId: Id, price: int): (r: seq<Barter>)
    ensures |r| == |data|
    ensures forall i :: 0 <= i < |data| ==> r[i] == CostInBarter(data[i], itemId, price)
  {
    Map(data, (b: Barter) => CostInBarter(b, itemId, price))
  }

  // ---- setRewardValue ----

  /** What `setRewardValue` does to one reward entry. */
  function RewardValueEntry(e: RewardItem, itemId: Id, price: int): (r: RewardItem)
    ensures r.item == e.item && r.count == e.count
    ensures r.priceCustom == if e.item.id == itemId then Some(price) else e.priceCustom
  {
    if e.item.id == itemId then e.(priceCustom := Some(price)) else e
  }

  /** What `setRewardValue` does to one barter: only its reward entries change. */
  function RewardValueInBarter(b: Barter, itemId: Id, price: int): (r: Barter)
    ensures r.requiredItems == b.requiredItems && r.taskUnlock == b.taskUnlock && r.attributes == b.attributes
    ensures |r.rewardItems| == |b.rewardItems|
    ensures forall k :: 0 <= k < |b.rewardItems| ==> r.rewardItems[k] == RewardValueEntry(b.rewardItems[k], itemId, price)
  {
    b.(rewardItems := Map(b.rewardItems, (e: RewardItem) => RewardValueEntry(e, itemId, price)))
  }

  /** The new `state.data` of `setRewardValue`. */
  function RewardValueInData(data: seq<Barter>, itemId: Id, price: int): (r: seq<Barter>)
    ensures |r| == |data|
    ensures forall i :: 0 <= i < |data| ==> r[i] == RewardValueInBarter(data[i], itemId, price)
  {
    Map(data, (b: Barter) => RewardValueInBarter(b, itemId, price))
  }

  // ---- properties ----

  /** Toggling an entry twice gives its count back, whatever state it started in
      (even the "count became undefined" case of line 48). An entry that started at 0,
      or does not match, comes back unchanged; one that started elsewhere comes back
      with that count remembered in `originalCount`. */
  lemma ToggleEntryTwice(e: RequiredItem, itemId: Id)
    ensures ToggleEntry(ToggleEntry(e, itemId), itemId).count == e.count
    ensures ToggleEntry(ToggleEntry(e, itemId), itemId) ==
      if e.item.id == itemId && e.count != Some(0) then e.(originalCount := e.count) else e
  {
  }

  /** `toggleItem` dispatched twice with the same id restores every count of every
      barter, and changes nothing but the `originalCount` of matching entries that
      were not at 0. */
  lemma ToggleInDataTwice(data: seq<Barter>, itemId: Id)
    ensures |ToggleInData(ToggleInData(data, itemId), itemId)| == |data|
    ensures forall i :: 0 <= i < |data| ==>
      var b := ToggleInData(ToggleInData(data, itemId), itemId)[i];
      b.rewardItems == data[i].rewardItems && b.taskUnlock == data[i].taskUnlock &&
      b.attributes == data[i].attributes && |b.requiredItems| == |data[i].requiredItems|
    ensures forall i, k :: 0 <= i < |data| && 0 <= k < |data[i].requiredItems| ==>
      var e := data[i].requiredItems[k];
      ToggleInData(ToggleInData(data, itemId), itemId)[i].requiredItems[k] ==
        if e.item.id == itemId && e.count != Some(0) then e.(originalCount := e.count) else e
  {
  }

  /** Applying `setItemCost` twice with the same payload is the same as applying it once. */
  lemma CostInDataIdempotent(data: seq<Barter>, itemId: Id, price: int)
    ensures CostInData(CostInData(data, itemId, price), itemId, price) == CostInData(data, itemId, price)
  {
    var once := CostInData(data, itemId, price);
    var twice := CostInData(once, itemId, price);
    forall i | 0 <= i < |data| ensures twice[i] == once[i] {
      assert twice[i].requiredItems == once[i].requiredItems;
    }
  }

  /** Applying `setRewardValue` twice with the same payload is the same as applying it once. */
  lemma RewardValueInDataIdempotent(data: seq<Barter>, itemId: Id, price: int)
    ensures RewardValueInData(RewardValueInData(data, itemId, price), itemId, price) == RewardValueInData(data, itemId, price)
  {
    var once := RewardValueInData(data, itemId, price);
    var twice := RewardValueInData(once, itemId, price);
    forall i | 0 <= i < |data| ensures twice[i] == once[i] {
      assert twice[i].rewardItems == once[i].rewardItems;
    }
  }

  /** `setItemCost` and `setRewardValue` touch disjoint parts of the state, so their
      order does not matter. */
  lemma CostAndRewardValueCommute(data: seq<Barter>, costId: Id, cost: int, rewardId: Id, value: int)
    ensures CostInData(RewardValueInData(data, rewardId, value), costId, cost) ==
            RewardValueInData(CostInData(data, costId, cost), rewardId, value)
  {
  }

  /** `toggleItem` and `setItemCost` change different fields of a required entry, so
      their order does not matter. */
  lemma ToggleAndCostCommute(data: seq<Barter>, toggleId: Id, costId: Id, cost: int)
    ensures ToggleInData(CostInData(data, costId, cost), toggleId) ==
            CostInData(ToggleInData(data, toggleId), costId, cost)
  {
    var a := ToggleInData(CostInData(data, costId, cost), toggleId);
    var b := CostInData(ToggleInData(data, toggleId), costId, cost);
    forall i | 0 <= i < |data| ensures a[i] == b[i] {
      ToggleAndCostCommuteInBarter(data[i], toggleId, costId, cost);
    }
  }

  /** On one barter, toggling a required entry and setting a required entry's custom
      price commute: the first changes only counts, the second only prices. */
  lemma ToggleAndCostCommuteInBarter(b: Barter, toggleId: Id, costId: Id, cost: int)
    ensures ToggleInBarter(CostInBarter(b, costId, cost), toggleId) ==
            CostInBarter(ToggleInBarter(b, toggleId), costId, cost)
  {
  }
}
