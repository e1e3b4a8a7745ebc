/** The barters slice's state and its reducers, as a class whose methods update the
    state in place the way the Immer draft is updated in src/features/barters/bartersSlice.js. */
module BarterStore {
  import opened Seqs
  import opened Barters
  import opened BarterReducers

  /** The callback `toggleItem` maps over one barter's required entries. */
  method ToggleEntries(entries: seq<RequiredItem>, itemId: Id) returns (r: seq<RequiredItem>)
    ensures |r| == |entries|
    ensures forall k :: 0 <= k < |entries| ==> r[k] == ToggleEntry(entries[k], itemId)
  {
    r := [];
    var k := 0;
    while k < |entries|
      invariant 0 <= k <= |entries|
      invariant |r| == k
      invariant forall j :: 0 <= j < k ==> r[j] == ToggleEntry(entries[j], itemId)
    {
      var e := entries[k];
      if e.item.id == itemId {
        if e.count == Some(0) {
          e := e.(count := e.originalCount);
        } else {
          e := e.(originalCount := e.count);
          e := e.(count := Some(0));
        }
      }
      r := r + [e];
      k := k + 1;
    }
  }

  /** The callback `setItemCost` maps over one barter's required entries. */
  method CostEntries(entries: seq<RequiredItem>, itemId: Id, price: int) returns (r: seq<RequiredItem>)
    ensures |r| == |entries|
    ensures forall k :: 0 <= k < |entries| ==> r[k] == CostEntry(entries[k], itemId, price)
  {
    r := [];
    var k := 0;
    while k < |entries|
      invariant 0 <= k <= |entries|
      invariant |r| == k
      invariant forall j :: 0 <= j < k ==> r[j] == CostEntry(entries[j], itemId, price)
    {
      var e := entries[k];
      if e.item.id == itemId {
        e := e.(priceCustom := Some(price));
      }
      r := r + [e];
      k := k + 1;
    }
  }

  /** The callback `setRewardValue` maps over one barter's reward entries. */
  method RewardValueEntries(entries: seq<RewardItem>, itemId: Id, price: int) returns (r: seq<RewardItem>)
    ensures |r| == |entries|
    ensures forall k :: 0 <= k < |entries| ==> r[k] == RewardValueEntry(entries[k], itemId, price)
  {
    r := [];
    var k := 0;
    while k < |entries|
      invariant 0 <= k <= |entries|
      invariant |r| == k
      invariant forall j :: 0 <= j < k ==> r[j] == RewardValueEntry(entries[j], itemId, price)
    {
      var e := entries[k];
      if e.item.id == itemId {
        e := e.(priceCustom := Some(price));
      }
      r := r + [e];
      k := k + 1;
    }
  }

  /** The barters store: `{data, status, error}`. `version` counts how many times
      `state.data` has been given a new reference. */
  class BartersState {
    var data: seq<Barter>
    var status: Status
    var error: Option<string>
    var version: nat

    /** The initial state; the placeholder barters come from outside this model. */
    constructor (placeholder: seq<Barter>)
      ensures data == placeholder && status == Idle && error == None && version == 0
    {
      data := placeholder;
      status := Idle;
      error := None;
      version := 0;
    }

    /** `toggleItem({itemId})`: toggles every matching required entry of every barter. */
    method ToggleItem(itemId: Id)
      modifies this
      ensures data == ToggleInData(old(data), itemId)
      ensures status == old(status) && error == old(error) && version == old(version) + 1
    {
      var barters := data;
      var newBarters: seq<Barter> := [];
      var i := 0;
      while i < |barters|
        invariant 0 <= i <= |barters|
        invariant unchanged(this)
        invariant |newBarters| == i
        invariant forall j :: 0 <= j < i ==> newBarters[j] == ToggleInBarter(barters[j], itemId)
      {
        var required := ToggleEntries(barters[i].requiredItems, itemId);
        assert required == ToggleInBarter(barters[i], itemId).requiredItems;
        newBarters := newBarters + [barters[i].(requiredItems := required)];
        i := i + 1;
      }
      data := newBarters;
      version := version + 1;
    }

    /** `setItemCost({itemId, price})`: sets the custom price of every matching required entry. */
    method SetItemCost(itemId: Id, price: int)
      modifies this
      ensures data == CostInData(old(data), itemId, price)
      ensures status == old(status) && error == old(error) && version == old(version) + 1
    {
      var barters := data;
      var newBarters: seq<Barter> := [];
      var i := 0;
      while i < |barters|
        invariant 0 <= i <= |barters|
        invariant unchanged(this)
        invariant |newBarters| == i
        invariant forall j :: 0 <= j < i ==> newBarters[j] == CostInBarter(barters[j], itemId, price)
      {
        var required := CostEntries(barters[i].requiredItems, itemId, price);
        assert required == CostInBarter(barters[i], itemId, price).requiredItems;
        newBarters := newBarters + [barters[i].(requiredItems := required)];
        i := i + 1;
      }
      data := newBarters;
      version := version + 1;
    }

    /** `setRewardValue({itemId, price})`: sets the custom price of every matching reward entry. */
    method SetRewardValue(itemId: Id, price: int)
      modifies this
      ensures data == RewardValueInData(old(data), itemId, price)
      ensures status == old(status) && error == old(error) && version == old(version) + 1
    {
      var barters := data;
      var newBarters: seq<Barter> := [];
      var i := 0;
      while i < |barters|
        invariant 0 <= i <= |barters|
        invariant unchanged(this)
        invariant |newBarters| == i
        invariant forall j :: 0 <= j < i ==> newBarters[j] == RewardValueInBarter(barters[j], itemId, price)
      {
        var rewards := RewardValueEntries(barters[i].rewardItems, itemId, price);
        assert rewards == RewardValueInBarter(barters[i], itemId, price).rewardItems;
        newBarters := newBarters + [barters[i].(rewardItems := rewards)];
        i := i + 1;
      }
      data := newBarters;
      version := version + 1;
    }

    /** `fetchBarters.pending`: only the status moves. */
    method FetchPending()
      modifies this
      ensures status == Loading
      ensures data == old(data) && error == old(error) && version == old(version)
    {
      status := Loading;
    }

    /** `fetchBarters.fulfilled`: the payload becomes the data, but the array is
        replaced only when it differs from the current one, so an identical refetch
        signals no change. A previous error is left in place. */
    method FetchFulfilled(payload: seq<Barter>)
      modifies this
      ensures status == Succeeded && data == payload && error == old(error)
      ensures version == if old(data) == payload then old(version) else old(version) + 1
    {
      status := Succeeded;
      if data != payload {
        data := payload;
        version := version + 1;
      }
    }

    /** `fetchBarters.rejected`: the last good data stays; status and error record the failure. */
    method FetchRejected(payload: Option<string>)
      modifies this
      ensures status == Failed && error == payload
      ensures data == old(data) && version == old(version)
    {
      status := Failed;
      error := payload;
    }
  }

  /** Two fulfilled fetches with the same payload: the second one signals no change,
      and a failed fetch in between keeps the data of the first. */
  method RefetchScenario(store: BartersState, payload: seq<Barter>, failure: Option<string>)
    modifies store
    ensures store.data == payload && store.status == Succeeded && store.error == failure
    ensures store.version <= old(store.version) + 1
  {
    store.FetchPending();
    store.FetchFulfilled(payload);
    var afterFirst := store.version;
    store.FetchPending();
    store.FetchRejected(failure);
    assert store.data == payload;
    store.FetchPending();
    store.FetchFulfilled(payload);
    assert store.version == afterFirst;
  }

  /** `toggleItem` dispatched twice with one id: every count is back, nothing else but
      remembered `originalCount`s has moved, and subscribers were notified twice. */
  method ToggleTwice(store: BartersState, itemId: Id)
    modifies store
    ensures store.status == old(store.status) && store.error == old(store.error)
    ensures store.version == old(store.version) + 2
    ensures |store.data| == |old(store.data)|
    ensures forall i, k :: 0 <= i < |store.data| && 0 <= k < |old(store.data)[i].requiredItems| ==>
      k < |store.data[i].requiredItems| &&
      store.data[i].requiredItems[k].count == old(store.data)[i].requiredItems[k].count
  {
    ghost var before := store.data;
    store.ToggleItem(itemId);
    store.ToggleItem(itemId);
    ToggleInDataTwice(before, itemId);
  }
}
