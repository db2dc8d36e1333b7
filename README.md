# FreshView settings policy

A model of the `Settings` class of the FreshView browser extension, which
hides already-watched videos on a video site. A `Settings` object holds a
configuration snapshot loaded from browser storage. It answers three
questions about the current page:

- `ignored`: is the hide feature switched off for this page type? Each of
  six page types (channel, home, explore, library, history, subscriptions)
  has a toggle. The feature is off when the toggle of a matching page type
  is exactly `false`.
- `hidden`: are watched videos hidden here? A bookmark stored for the
  page's path overrides the universal Hide Videos toggle.
- `threshold`: at what watch percentage does a video count as viewed? It is
  the slider value when the threshold checkbox is exactly `true`, and 100
  otherwise.

`load` replaces the snapshot with the one browser storage delivers.

Files:

- `snapshot.dfy` (module `Snapshot`) holds the snapshot record, the page
  context and the page-type rule behind `ignored`. `IgnoredOn` is the
  reference definition: some page type matches and has a toggle that is
  exactly `false`. `ScanFilters` is the first-match scan over any order of
  entries. The module also holds the lemmas about both.
- `settings.dfy` (module `Policy`) holds the `Settings` class. It has a
  `state` field. `Ignored` is a method with a loop over the filters table.
  `Hidden` and `Threshold` are functions that read `state`. The constructor
  and `Load` assign `state`.

Stored toggles are compared with strict equality in the source. They are
therefore modelled as `Toggle = Missing | Boolean(b) | NonBoolean`.
A toggle that is absent, or that holds some non-boolean value, is neither
`=== false` nor `=== true`.

- The doc comment of `threshold` (js/settings.js:61-62) promises a result in
  [1, 100]. The code returns the stored slider value without checking it.
  The model proves only that the result is in [1, 100] when the stored
  value is.
- The code falls back to 100 for every checkbox value that is not exactly
  `true`: `false`, absent, or not a boolean.

## Model

| member | source | states |
|---|---|---|
| `Snapshot.FilterIndex` | js/settings.js:26-33 | every one of the six page types has an entry in the filters table |
| `Snapshot.ScanFilters` | js/settings.js:35-41 | a first-match scan over the listed entries returns true exactly when some listed entry's toggle is exactly `false` and its page predicate holds |
| `Snapshot.ScanAnyOrder` | js/settings.js:26-41 | a scan over any list that names all six page types decides exactly "some page type matches and its toggle is `false`" |
| `Snapshot.ScanOrderIrrelevant` | js/settings.js:35-41 | two scans over lists naming the same page types agree, so the iteration order of the filters table does not affect the answer |
| `Snapshot.OffToggleIgnores` | js/settings.js:36-37 | a toggle that is exactly `false` on a page of its type switches the feature off, whatever the other toggles hold |
| `Snapshot.NoPageTypeNeverIgnored` | js/settings.js:35-41 | a page matching none of the six page predicates is never ignored, whatever the toggles hold |
| `Snapshot.OnlyStrictFalseCounts` | js/settings.js:36 | replacing a toggle that is not `false` (true, absent or not a boolean) with another such value never changes whether the page is ignored |
| `Snapshot.SinglePageType` | js/settings.js:26-41 | when exactly one page predicate holds, the page is ignored exactly when that type's toggle is `false`, so no tie-break is needed |
| `Policy.Settings.constructor` | js/settings.js:12-13 | a new Settings object starts from the default snapshot |
| `Policy.Settings.Ignored` | js/settings.js:23-42 | the loop over the filters table, in its order, returns the reference answer `IgnoredOn` and agrees with the first-match scan; it changes no state |
| `Policy.Settings.Hidden` | js/settings.js:51-56 | with a bookmark for the page's path the answer is that bookmark; without one it is the universal Hide Videos toggle |
| `Policy.Settings.Threshold` | js/settings.js:61-68 | the slider value, unclamped, when the checkbox is exactly `true`, and 100 otherwise; the result lies in [1, 100] whenever the slider value does |
| `Policy.Settings.Load` | js/settings.js:77-79 | the delivered snapshot replaces the whole state |
| `Policy.HiddenDependsOnPathOnly` | js/settings.js:52-55 | `hidden` depends on the page's path and not on its page type |
| `Policy.HiddenLocal` | js/settings.js:53-55 | `hidden` reads only the universal toggle and the bookmark for the current path; other bookmarks and the other settings do not affect it |
| `Policy.BookmarkOverridesUniversal` | js/settings.js:53-55 | a bookmark stored for the current path is the answer even when it disagrees with the universal toggle |
| `Policy.ReloadIsIdempotent` | js/settings.js:76-85 | loading the same snapshot a second time leaves `ignored`, `hidden` and `threshold` giving the same answers |

## Left out

- The asynchronous `Storage.get` call, the callback plumbing and the optional continuation of `load` (js/settings.js:77-84) are I/O against browser storage. `Load` models only the step that assigns the delivered values. The race between overlapping loads is not modelled.
- The `this.load()` call in the constructor is not modelled. Its effect arrives later, through `Load`.
- `Logger.debug` is diagnostics only.
- `window.location`, `Path.parse`, `document` and the six `is*Page` predicates are not part of this model. The page context is an input: the normalized path and six booleans (`Page`).
- The storage-key constants and `SETTINGS_DEFAULT_STATE` are defined outside `js/settings.js`. Snapshot entries are named record fields. The constructor takes the default snapshot as a parameter.
- The model assumes the six storage keys are distinct, so the filters table has six entries. Its order (`FilterOrder`) follows the source's listing. The answer does not depend on that order.
- Values are typed. The universal toggle and bookmark values are booleans, and the slider value is an integer. The source reads untyped values, but a snapshot merged with defaults always holds these keys.
- Policy.Settings.Hidden: a bookmark is looked up as map membership. A JavaScript object lookup could also reach inherited properties for a path such as `constructor`. Normalized paths are not expected to take such names.
