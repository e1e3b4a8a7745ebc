/** `selectAllBarters`: the barters of the store joined against the items store and
    the quests store, for display. Pure: it reads three arrays and builds a new one. */
module BarterSelectors {
  import opened Seqs
  import opened Barters

  /** `taskUnlock` resolved against the quests store: the first quest with the same
      id, or absent when there is none (or when the barter has no `taskUnlock`). */
  function ResolveQuest(taskUnlock: Option<Quest>, quests: seq<Quest>): (r: Option<Quest>)
    ensures taskUnlock.None? ==> r.None?
    ensures taskUnlock.Some? ==>
      (r.None? <==> forall i :: 0 <= i < |quests| ==> quests[i].id != taskUnlock.value.id)
    ensures r.Some? ==>
      taskUnlock.Some? &&
      exists i :: 0 <= i < |quests| && quests[i] == r.value && quests[i].id == taskUnlock.value.id &&
        forall j :: 0 <= j < i ==> quests[j].id != taskUnlock.value.id
  {
    if taskUnlock.None? then None
    else Find(quests, (q: Quest) => q.id == taskUnlock.value.id)
  }

  /** The first item of the store with the given id. */
  function ItemById(items: seq<Item>, id: Id): (r: Option<Item>)
    ensures r.None? <==> forall i :: 0 <= i < |items| ==> items[i].id != id
    ensures r.Some? ==>
      exists i :: 0 <= i < |items| && items[i] == r.value && items[i].id == id &&
        forall j :: 0 <= j < i ==> items[j].id != id
  {
    Find(items, (it: Item) => it.id == id)
  }

  /** A required entry with its item replaced by the store's item, or absent
      (`false` in the source) when the store has no item with that id. */
  function ResolveRequired(e: RequiredItem, items: seq<Item>): (r: Option<RequiredItem>)
    ensures r.None? <==> ItemById(items, e.item.id).None?
    ensures r.Some? ==> r.value == e.(item := ItemById(items, e.item.id).value)
  {
    match ItemById(items, e.item.id)
    case None => None
    case Some(it) => Some(e.(item := it))
  }

  /** A reward entry with its item replaced by the store's item, or absent. */
  function ResolveReward(e: RewardItem, items: seq<Item>): (r: Option<RewardItem>)
    ensures r.None? <==> ItemById(items, e.item.id).None?
    ensures r.Some? ==> r.value == e.(item := ItemById(items, e.item.id).value)
  {
    match ItemById(items, e.item.id)
    case None => None
    case Some(it) => Some(e.(item := it))
  }

  /** `barter.requiredItems.map(...).filter(Boolean)`: every entry resolved, the unresolvable ones dropped. */
  function ResolveRequiredItems(es: seq<RequiredItem>, items: seq<Item>): (r: seq<RequiredItem>)
    ensures |r| <= |es|
    ensures forall x :: x in r ==>
      x.item in items && exists e :: e in es && e.item.id == x.item.id && x == e.(item := x.item)
  {
    var rs := Map(es, (e: RequiredItem) => ResolveRequired(e, items));
    var r := Somes(rs);
    assert forall x :: x in r ==> exists k :: 0 <= k < |es| && rs[k] == Some(x);
    r
  }

  /** `barter.rewardItems.map(...).filter(Boolean)`. */
  function ResolveRewardItems(es: seq<RewardItem>, items: seq<Item>): (r: seq<RewardItem>)
    ensures |r| <= |es|
    ensures forall x :: x in r ==>
      x.item in items && exists e :: e in es && e.item.id == x.item.id && x == e.(item := x.item)
  {
    var rs := Map(es, (e: RewardItem) => ResolveReward(e, items));
    var r := Somes(rs);
    assert forall x :: x in r ==> exists k :: 0 <= k < |es| && rs[k] == Some(x);
    r
  }

  /** One barter with all its references resolved (the object built at lines 131-154). */
  function ResolveBarter(b: Barter, items: seq<Item>, quests: seq<Quest>): Barter {
    b.(requiredItems := ResolveRequiredItems(b.requiredItems, items),
       rewardItems := ResolveRewardItems(b.rewardItems, items),
       taskUnlock := ResolveQuest(b.taskUnlock, quests))
  }

  /** Whether a resolved barter is shown: both of its lists are non-empty. */
  predicate Shown(b: Barter) {
    |b.rewardItems| > 0 && |b.requiredItems| > 0
  }

  /** `selectAllBarters`: the resolved barters, those with an empty list dropped. */
  function SelectAllBarters(data: seq<Barter>, items: seq<Item>, quests: seq<Quest>): (r: seq<Barter>)
    ensures |r| <= |data|
    ensures forall b :: b in r ==> |b.requiredItems| > 0 && |b.rewardItems| > 0
    ensures forall b :: b in r <==>
      Shown(b) && exists i :: 0 <= i < |data| && b == ResolveBarter(data[i], items, quests)
  {
    var resolved := Map(data, (b: Barter) => ResolveBarter(b, items, quests));
    Filter(resolved, Shown)
  }

  // ---- entry lists ----

  /** Resolving a list of required entries works entry by entry, in order. */
  lemma ResolveRequiredItemsConcat(s: seq<RequiredItem>, t: seq<RequiredItem>, items: seq<Item>)
    ensures ResolveRequiredItems(s + t, items) == ResolveRequiredItems(s, items) + ResolveRequiredItems(t, items)
  {
    var f := (e: RequiredItem) => ResolveRequired(e, items);
    MapConcat(s, t, f);
    SomesConcat(Map(s, f), Map(t, f));
  }

  /** A single required entry is kept, with the store's first item of its id and all
      its other fields, exactly when the store has an item with that id. */
  lemma ResolveRequiredItemsSingle(e: RequiredItem, items: seq<Item>)
    ensures (exists i :: 0 <= i < |items| && items[i].id == e.item.id) ==>
      ResolveRequiredItems([e], items) == [e.(item := ItemById(items, e.item.id).value)]
    ensures (forall i :: 0 <= i < |items| ==> items[i].id != e.item.id) ==>
      ResolveRequiredItems([e], items) == []
  {
  }

  /** Resolving a list of reward entries works entry by entry, in order. */
  lemma ResolveRewardItemsConcat(s: seq<RewardItem>, t: seq<RewardItem>, items: seq<Item>)
    ensures ResolveRewardItems(s + t, items) == ResolveRewardItems(s, items) + ResolveRewardItems(t, items)
  {
    var f := (e: RewardItem) => ResolveReward(e, items);
    MapConcat(s, t, f);
    SomesConcat(Map(s, f), Map(t, f));
  }

  /** A single reward entry is kept exactly when the store has an item with its id. */
  lemma ResolveRewardItemsSingle(e: RewardItem, items: seq<Item>)
    ensures (exists i :: 0 <= i < |items| && items[i].id == e.item.id) ==>
      ResolveRewardItems([e], items) == [e.(item := ItemById(items, e.item.id).value)]
    ensures (forall i :: 0 <= i < |items| ==> items[i].id != e.item.id) ==>
      ResolveRewardItems([e], items) == []
  {
  }

  /** When the items store knows every referenced id, no required entry is dropped. */
  lemma {:induction false} ResolveRequiredItemsComplete(es: seq<RequiredItem>, items: seq<Item>)
    requires forall k :: 0 <= k < |es| ==> exists i :: 0 <= i < |items| && items[i].id == es[k].item.id
    ensures |ResolveRequiredItems(es, items)| == |es|
  {
    if es != [] {
      assert es == [es[0]] + es[1..];
      ResolveRequiredItemsConcat([es[0]], es[1..], items);
      ResolveRequiredItemsSingle(es[0], items);
      ResolveRequiredItemsComplete(es[1..], items);
    }
  }

  /** When the items store knows every referenced id, no reward entry is dropped. */
  lemma {:induction false} ResolveRewardItemsComplete(es: seq<RewardItem>, items: seq<Item>)
    requires forall k :: 0 <= k < |es| ==> exists i :: 0 <= i < |items| && items[i].id == es[k].item.id
    ensures |ResolveRewardItems(es, items)| == |es|
  {
    if es != [] {
      assert es == [es[0]] + es[1..];
      ResolveRewardItemsConcat([es[0]], es[1..], items);
      ResolveRewardItemsSingle(es[0], items);
      ResolveRewardItemsComplete(es[1..], items);
    }
  }

  // ---- the selector ----

  /** The selector works barter by barter: its output keeps the input order. */
  lemma SelectAllBartersConcat(d: seq<Barter>, e: seq<Barter>, items: seq<Item>, quests: seq<Quest>)
    ensures SelectAllBarters(d + e, items, quests) ==
            SelectAllBarters(d, items, quests) + SelectAllBarters(e, items, quests)
  {
    var f := (b: Barter) => ResolveBarter(b, items, quests);
    MapConcat(d, e, f);
    FilterConcat(Map(d, f), Map(e, f), Shown);
  }

  /** A single barter is shown, resolved, exactly when both of its resolved lists are non-empty. */
  lemma SelectAllBartersSingle(b: Barter, items: seq<Item>, quests: seq<Quest>)
    ensures SelectAllBarters([b], items, quests) ==
      if Shown(ResolveBarter(b, items, quests)) then [ResolveBarter(b, items, quests)] else []
  {
  }

  // ---- two worked cases ----

  /** A barter needing item "1" for item "2", unlocked by quest "9". */
  function SampleBarter(): Barter {
    Barter([RequiredItem(Item("1", map[]), Some(2), None, None)],
           [RewardItem(Item("2", map[]), 1, None)],
           Some(Quest("9", map[])),
           map[])
  }

  /** Both items known, the quest unknown: the barter is shown, both entries resolved,
      and its `taskUnlock` resolves to absent. */
  lemma SampleBarterShown()
    ensures SelectAllBarters([SampleBarter()], [Item("1", map["name" := "a"]), Item("2", map["name" := "b"])], []) ==
      [Barter([RequiredItem(Item("1", map["name" := "a"]), Some(2), None, None)],
              [RewardItem(Item("2", map["name" := "b"]), 1, None)],
              None,
              map[])]
  {
    var items := [Item("1", map["name" := "a"]), Item("2", map["name" := "b"])];
    var b := SampleBarter();
    ResolveRequiredItemsSingle(b.requiredItems[0], items);
    assert items[0].id == "1";
    ResolveRewardItemsSingle(b.rewardItems[0], items);
    assert items[1].id == "2";
    SelectAllBartersSingle(b, items, []);
  }

  /** The reward's item unknown: the reward list is empty, so the barter is dropped. */
  lemma SampleBarterDropped()
    ensures SelectAllBarters([SampleBarter()], [Item("1", map[])], []) == []
  {
  }
}
