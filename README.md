# Barters slice of tarkov-dev, in Dafny

This project models the barter-data layer of the tarkov-dev web application
(`src/features/barters/bartersSlice.js`):

- the **barters store** `{data, status, error}` and its reducers: `toggleItem`,
  `setItemCost`, `setRewardValue`, and the `fetchBarters` pending / fulfilled /
  rejected cases;
- the **selector `selectAllBarters`**, which joins every barter against the items
  store and the quests store, drops entries whose item is unknown, and drops
  barters that are left with no required or no reward entry.

Layout:

- `seqs.dfy` (module `Seqs`): `Option`, and `Map`, `Find`, `Somes`, `Filter`, the
  models of JavaScript's `map`, `find`, `.filter(Boolean)` and `filter`, with
  the facts that they work element by element and keep order.
- `barters.dfy`: module `Barters` (the records: `Item`, `Quest`, `RequiredItem`,
  `RewardItem`, `Barter`, `Status`) and module `BarterReducers` (the new `data`
  each reducer computes, as functions, and the lemmas about them: toggle
  round trip, idempotence, commutation).
- `barter_store.dfy` (module `BarterStore`): class `BartersState`, whose
  methods update `data`, `status` and `error` in place with loops over the
  barters and their entries. Each method is proved against the matching
  function of `BarterReducers`.
- `barter_selectors.dfy` (module `BarterSelectors`): `selectAllBarters` and the
  lookups it is built from, as functions, with lemmas about its output.

Modelling choices:

- Ids are strings compared with `==`. Items and quests carry their id plus an
  attribute map that the core never reads.
- `RequiredItem.count` is an `Option<int>`. Line 48 copies `originalCount` into
  `count`, and `originalCount` is absent until the entry has been toggled off
  once. So toggling back such an entry makes `count` absent. The model keeps this
  case, and `ToggleEntryTwice` shows that two toggles restore `count` in every
  case, including this one.
- The deep-equality test of line 110 is Dafny's structural equality on the
  datatypes.
- `BartersState.version` counts how many times `state.data` is given a new
  reference. It does not stand for every change a subscriber sees: a selector on
  the whole slice (line 162) also sees `status` changes, and `selectAllBarters`
  (line 163) builds a fresh array on every run. `toggleItem`,
  `setItemCost` and `setRewardValue` always assign a fresh array (lines 62, 81
  and 100), so they always advance it. `fetchBarters.fulfilled` advances it only
  when the payload differs from the current data.
- `error` is an `Option<string>`, and `rejected` copies the action's payload into
  it unchanged (line 116). The thunk at lines 32-34 never rejects with a value,
  so in the running application that payload is always absent: every failed
  fetch sets `error` back to absent, and the failure's message is never kept.
  `FetchRejected` takes the payload as a parameter, so it covers that case
  (`FetchRejected(None)`) as well as a payload carrying a value.
- Prices are modelled as `int`.
- The placeholder data (line 27) is a parameter of the constructor.

## Model

| member | source | states |
|---|---|---|
| `Seqs.Map` | src/features/barters/bartersSlice.js:43-60 | `map` gives one result per element, at the same position |
| `Seqs.Find` | src/features/barters/bartersSlice.js:129 | `find` gives nothing exactly when no element satisfies the predicate; otherwise it gives the first one that does |
| `Seqs.Somes` | src/features/barters/bartersSlice.js:133-142 | `.map(...).filter(Boolean)` keeps exactly the present values and is never longer than its input |
| `Seqs.Filter` | src/features/barters/bartersSlice.js:155 | `filter` keeps exactly the elements satisfying the predicate and is never longer than its input |
| `Seqs.MapConcat` | src/features/barters/bartersSlice.js:126 | mapping distributes over concatenation |
| `Seqs.SomesConcat` | src/features/barters/bartersSlice.js:142 | dropping absent values distributes over concatenation, so kept values stay in order |
| `Seqs.FilterConcat` | src/features/barters/bartersSlice.js:155 | filtering distributes over concatenation, so kept elements stay in order |
| `BarterReducers.ToggleEntry` | src/features/barters/bartersSlice.js:46-52 | a matching entry at count 0 gets its count back from `originalCount`; any other matching entry gets count 0 with its old count saved in `originalCount`; item and custom price are kept, and an entry with another id is untouched |
| `BarterReducers.ToggleInBarter` | src/features/barters/bartersSlice.js:43-60 | `toggleItem` changes only a barter's required entries: same number of entries, each toggled in place; reward entries, `taskUnlock` and other fields are kept |
| `BarterReducers.ToggleInData` | src/features/barters/bartersSlice.js:40-63 | `toggleItem` keeps the number and order of barters and toggles each one |
| `BarterReducers.CostEntry` | src/features/barters/bartersSlice.js:69-75 | `setItemCost` sets the custom price of a matching entry and keeps its item, count and original count |
| `BarterReducers.CostInBarter` | src/features/barters/bartersSlice.js:67-79 | `setItemCost` changes only a barter's required entries, each in place; reward entries, `taskUnlock` and other fields are kept |
| `BarterReducers.CostInData` | src/features/barters/bartersSlice.js:64-82 | `setItemCost` keeps the number and order of barters and prices each one |
| `BarterReducers.RewardValueEntry` | src/features/barters/bartersSlice.js:88-94 | `setRewardValue` sets the custom price of a matching reward entry and keeps its item and count |
| `BarterReducers.RewardValueInBarter` | src/features/barters/bartersSlice.js:86-98 | `setRewardValue` changes only a barter's reward entries, each in place; required entries, `taskUnlock` and other fields are kept |
| `BarterReducers.RewardValueInData` | src/features/barters/bartersSlice.js:83-101 | `setRewardValue` keeps the number and order of barters and prices each one |
| `BarterReducers.ToggleEntryTwice` | src/features/barters/bartersSlice.js:46-52 | toggling an entry twice restores its count in every case; an entry that started at 0 or does not match comes back unchanged, and any other entry comes back with its count saved in `originalCount` |
| `BarterReducers.ToggleInDataTwice` | src/features/barters/bartersSlice.js:40-63 | dispatching `toggleItem` twice with one id restores every entry of every barter, except that matching entries that were not at 0 keep their count in `originalCount`; reward entries, `taskUnlock`, other fields and all lengths are unchanged |
| `BarterReducers.CostInDataIdempotent` | src/features/barters/bartersSlice.js:64-82 | `setItemCost` applied twice with the same payload equals applying it once |
| `BarterReducers.RewardValueInDataIdempotent` | src/features/barters/bartersSlice.js:83-101 | `setRewardValue` applied twice with the same payload equals applying it once |
| `BarterReducers.CostAndRewardValueCommute` | src/features/barters/bartersSlice.js:64-101 | `setItemCost` and `setRewardValue` commute, because they touch disjoint parts of the state |
| `BarterReducers.ToggleAndCostCommuteInBarter` | src/features/barters/bartersSlice.js:43-79 | on one barter, toggling and setting a required entry's price commute |
| `BarterReducers.ToggleAndCostCommute` | src/features/barters/bartersSlice.js:40-82 | `toggleItem` and `setItemCost` commute on the whole data |
| `BarterStore.ToggleEntries` | src/features/barters/bartersSlice.js:44-57 | the loop over one barter's required entries yields each entry toggled, in order |
| `BarterStore.CostEntries` | src/features/barters/bartersSlice.js:68-76 | the loop over one barter's required entries yields each entry priced, in order |
| `BarterStore.RewardValueEntries` | src/features/barters/bartersSlice.js:87-95 | the loop over one barter's reward entries yields each entry priced, in order |
| `BarterStore.BartersState.constructor` | src/features/barters/bartersSlice.js:26-30 | the initial state is the placeholder data, status idle and no error |
| `BarterStore.BartersState.ToggleItem` | src/features/barters/bartersSlice.js:40-63 | the new data is `ToggleInData` of the old data; status and error are unchanged; data gets a new array |
| `BarterStore.BartersState.SetItemCost` | src/features/barters/bartersSlice.js:64-82 | the new data is `CostInData` of the old data; status and error are unchanged; data gets a new array |
| `BarterStore.BartersState.SetRewardValue` | src/features/barters/bartersSlice.js:83-101 | the new data is `RewardValueInData` of the old data; status and error are unchanged; data gets a new array |
| `BarterStore.BartersState.FetchPending` | src/features/barters/bartersSlice.js:104-106 | status becomes loading; data, error and the data array are unchanged |
| `BarterStore.BartersState.FetchFulfilled` | src/features/barters/bartersSlice.js:107-113 | status becomes succeeded and data equals the payload; the array is replaced exactly when the payload differs from the old data; error is not cleared |
| `BarterStore.BartersState.FetchRejected` | src/features/barters/bartersSlice.js:114-117 | status becomes failed and error becomes the payload; the last data stays |
| `BarterStore.RefetchScenario` | src/features/barters/bartersSlice.js:104-117 | two successful fetches of the same payload, with a failure between them, leave that payload in place and replace the array at most once |
| `BarterStore.ToggleTwice` | src/features/barters/bartersSlice.js:40-63 | dispatching `toggleItem` twice on the store restores every required entry's count |
| `BarterSelectors.ResolveQuest` | src/features/barters/bartersSlice.js:127-130 | `taskUnlock` resolves to the first quest with the same id, and is absent when the barter has none or no quest has that id |
| `BarterSelectors.ItemById` | src/features/barters/bartersSlice.js:134 | the item lookup gives the first item with the id, and nothing exactly when no item has it |
| `BarterSelectors.ResolveRequired` | src/features/barters/bartersSlice.js:133-141 | a required entry resolves exactly when its id is known; it then carries the store's item and keeps its other fields |
| `BarterSelectors.ResolveReward` | src/features/barters/bartersSlice.js:143-151 | a reward entry resolves exactly when its id is known; it then carries the store's item and keeps its other fields |
| `BarterSelectors.ResolveRequiredItems` | src/features/barters/bartersSlice.js:133-142 | the resolved required list is no longer than the input; every entry in it holds an item of the store and comes from an input entry with the same id and the same other fields |
| `BarterSelectors.ResolveRewardItems` | src/features/barters/bartersSlice.js:143-152 | the same for the reward list |
| `BarterSelectors.SelectAllBarters` | src/features/barters/bartersSlice.js:125-156 | the output is no longer than the data; every output barter has non-empty required and reward lists; a barter is in the output exactly when it is the resolution of some input barter and both of its lists are non-empty |
| `BarterSelectors.ResolveRequiredItemsConcat` | src/features/barters/bartersSlice.js:133-142 | required entries resolve one by one, keeping their relative order |
| `BarterSelectors.ResolveRequiredItemsSingle` | src/features/barters/bartersSlice.js:133-142 | a required entry is dropped exactly when no item has its id; otherwise it is kept with the first such item and its own count and prices |
| `BarterSelectors.ResolveRewardItemsConcat` | src/features/barters/bartersSlice.js:143-152 | reward entries resolve one by one, keeping their relative order |
| `BarterSelectors.ResolveRewardItemsSingle` | src/features/barters/bartersSlice.js:143-152 | a reward entry is dropped exactly when no item has its id; otherwise it is kept with the first such item |
| `BarterSelectors.ResolveRequiredItemsComplete` | src/features/barters/bartersSlice.js:133-142 | when every referenced id is in the items store, no required entry is dropped |
| `BarterSelectors.ResolveRewardItemsComplete` | src/features/barters/bartersSlice.js:143-152 | when every referenced id is in the items store, no reward entry is dropped |
| `BarterSelectors.SelectAllBartersConcat` | src/features/barters/bartersSlice.js:126-155 | the selector works barter by barter, so output barters keep the input order |
| `BarterSelectors.SelectAllBartersSingle` | src/features/barters/bartersSlice.js:126-155 | a single barter appears, resolved, exactly when both of its resolved lists are non-empty |
| `BarterSelectors.SampleBarterShown` | src/features/barters/bartersSlice.js:125-156 | a barter whose two items are known and whose quest is not: the barter is shown with both entries resolved and `taskUnlock` absent |
| `BarterSelectors.SampleBarterDropped` | src/features/barters/bartersSlice.js:125-156 | the same barter with its reward item unknown: the barter is dropped |

## Left out

- `useBartersQuery` (lines 14-24): configuration of the react-query library. That library is not part of this model.
- `useBartersData` (lines 158-179): React hooks, the 10-minute `setInterval` polling and the module-level `isFetchingData` flag. These are timer and component lifecycle, with no data logic.
- `fetchBarters` (lines 32-34), `doFetchBarters`, `langCode` and `placeholderBarters`: network I/O and data defined in files outside this model. Fetch payloads and the placeholder data are arbitrary inputs.
- `fast-deep-equal` (line 4): replaced by structural equality on the datatypes.
- Redux Toolkit's `createSlice` and `createAsyncThunk`, and Immer's drafts: each reducer is a method that changes the state directly. Because barters are values here, two barters can never share one entry object. The source's JSON-fetched data has no such sharing either.
- Fetch completions that arrive out of order are not modelled. Each reducer is one atomic step, and any order of calls is allowed.
- `src/pages/items/glasses/index.js`: page rendering, percentage formatting, price formatting and name trimming. All of it is presentation.
- `src/store.js`: wiring of reducers defined in files outside this model. It has no logic of its own.
