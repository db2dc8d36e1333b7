/**
 * The configuration snapshot that the Settings object holds, the page
 * context it is asked about, and the rule that decides when the hide
 * feature is switched off for a page type.
 */
module Snapshot {

  /**
   * A stored toggle as it is read back from browser storage. The source
   * compares toggles with strict equality (`=== false`, `=== true`), so a
   * value that is absent or is not a boolean at all is kept apart from the
   * two booleans: neither of them is strictly equal to `false` or `true`.
   */
  datatype Toggle = Missing | Boolean(b: bool) | NonBoolean {

    /** The value is the boolean `false` and nothing else (`=== false`). */
    predicate StrictlyFalse() {
      this == Boolean(false)
    }

    /** The value is the boolean `true` and nothing else (`=== true`). */
    predicate StrictlyTrue() {
      this == Boolean(true)
    }
  }

  /** The six page types that have their own "hide on this page" toggle. */
  datatype PageType = Channel | Home | Explore | Library | History | Subscriptions

  /**
   * The current page as the page classifier sees it: its normalized path
   * (the key under which a bookmark is stored) and the verdict of each of
   * the six page-type predicates.
   */
  datatype Page = Page(
    path: string,
    channel: bool,
    home: bool,
    explore: bool,
    library: bool,
    history: bool,
    subscriptions: bool)

  /**
   * The configuration snapshot: one field per storage key that the Settings
   * object reads.
   */
  datatype State = State(
    hideChannels: Toggle,
    hideHome: Toggle,
    hideExplore: Toggle,
    hideLibrary: Toggle,
    hideHistory: Toggle,
    hideSubscriptions: Toggle,
    hideVideos: bool,                 // the universal Hide Videos toggle
    bookmarks: map<string, bool>,     // per-path overrides of hideVideos
    thresholdEnabled: Toggle,         // the view-threshold checkbox
    thresholdPercent: int)            // the view-threshold slider

  /** The stored toggle for one page type. */
  function PageToggle(s: State, t: PageType): Toggle {
    match t
    case Channel => s.hideChannels
    case Home => s.hideHome
    case Explore => s.hideExplore
    case Library => s.hideLibrary
    case History => s.hideHistory
    case Subscriptions => s.hideSubscriptions
  }

  /** The snapshot with the toggle of page type `t` set to `v`. */
  function WithPageToggle(s: State, t: PageType, v: Toggle): (s': State)
    ensures PageToggle(s', t) == v
    ensures forall u :: u != t ==> PageToggle(s', u) == PageToggle(s, u)
    ensures s'.hideVideos == s.hideVideos && s'.bookmarks == s.bookmarks
    ensures s'.thresholdEnabled == s.thresholdEnabled && s'.thresholdPercent == s.thresholdPercent
  {
    match t
    case Channel => s.(hideChannels := v)
    case Home => s.(hideHome := v)
    case Explore => s.(hideExplore := v)
    case Library => s.(hideLibrary := v)
    case History => s.(hideHistory := v)
    case Subscriptions => s.(hideSubscriptions := v)
  }

  /** The page-type predicate for `t` holds of the current page. */
  predicate Matches(page: Page, t: PageType) {
    match t
    case Channel => page.channel
    case Home => page.home
    case Explore => page.explore
    case Library => page.library
    case History => page.history
    case Subscriptions => page.subscriptions
  }

  /** The order in which the filters table lists its (toggle, predicate) entries. */
  const FilterOrder: seq<PageType> := [Channel, Home, Explore, Library, History, Subscriptions]

  /** Where page type `t` stands in the filters table: every type has an entry. */
  function FilterIndex(t: PageType): (k: nat)
    ensures k < |FilterOrder| && FilterOrder[k] == t
  {
    match t
    case Channel => 0
    case Home => 1
    case Explore => 2
    case Library => 3
    case History => 4
    case Subscriptions => 5
  }

  /** One filter entry switches the feature off: its toggle is exactly `false` and its page type is the current one. */
  predicate Fires(s: State, page: Page, t: PageType) {
    PageToggle(s, t).StrictlyFalse() && Matches(page, t)
  }

  /** The hide feature is switched off for the current page when some filter entry fires. */
  ghost predicate IgnoredOn(s: State, page: Page) {
    exists t :: Fires(s, page, t)
  }

  /**
   * A first-match scan over the filter entries listed in `order`: it answers
   * true as soon as one entry fires and false when the list runs out.
   */
  function ScanFilters(s: State, page: Page, order: seq<PageType>): (r: bool)
    ensures r <==> exists k :: 0 <= k < |order| && Fires(s, page, order[k])
  {
    if order == [] then false
    else if Fires(s, page, order[0]) then true
    else
      var rest := ScanFilters(s, page, order[1..]);
      assert forall k :: 1 <= k < |order| ==> order[k] == order[1..][k - 1];
      rest
  }

  /** A scan over any list that names every page type decides exactly IgnoredOn. */
  lemma {:induction false} ScanAnyOrder(s: State, page: Page, order: seq<PageType>)
    requires forall t :: t in order
    ensures ScanFilters(s, page, order) == IgnoredOn(s, page)
  {
    if IgnoredOn(s, page) {
      var t :| Fires(s, page, t);
      assert t in order;
      var k :| 0 <= k < |order| && order[k] == t;
      assert Fires(s, page, order[k]);
    }
  }

  /** Two scans over lists that name the same page types give the same answer. */
  lemma {:induction false} ScanOrderIrrelevant(s: State, page: Page, o1: seq<PageType>, o2: seq<PageType>)
    requires forall t :: t in o1 <==> t in o2
    ensures ScanFilters(s, page, o1) == ScanFilters(s, page, o2)
  {
    if ScanFilters(s, page, o1) {
      var k :| 0 <= k < |o1| && Fires(s, page, o1[k]);
      assert o1[k] in o2;
      var j :| 0 <= j < |o2| && o2[j] == o1[k];
      assert Fires(s, page, o2[j]);
    }
    if ScanFilters(s, page, o2) {
      var j :| 0 <= j < |o2| && Fires(s, page, o2[j]);
      assert o2[j] in o1;
      var k :| 0 <= k < |o1| && o1[k] == o2[j];
      assert Fires(s, page, o1[k]);
    }
  }

  /** A toggle that is exactly `false` on a page of its type switches the feature off, whatever the other toggles hold. */
  lemma OffToggleIgnores(s: State, page: Page, t: PageType)
    requires PageToggle(s, t).StrictlyFalse() && Matches(page, t)
    ensures IgnoredOn(s, page)
  {
    assert Fires(s, page, t);
  }

  /** A page that matches none of the six page types is never ignored, whatever the toggles hold. */
  lemma NoPageTypeNeverIgnored(s: State, page: Page)
    requires forall t :: !Matches(page, t)
    ensures !IgnoredOn(s, page)
  {
  }

  /**
   * Only a toggle that is exactly `false` takes part: replacing one toggle by
   * any value other than `false` (true, absent, not a boolean) by any other
   * such value never changes the answer.
   */
  lemma {:induction false} OnlyStrictFalseCounts(s: State, page: Page, t: PageType, v: Toggle, w: Toggle)
    requires !v.StrictlyFalse() && !w.StrictlyFalse()
    ensures IgnoredOn(WithPageToggle(s, t, v), page) == IgnoredOn(WithPageToggle(s, t, w), page)
  {
    var sv, sw := WithPageToggle(s, t, v), WithPageToggle(s, t, w);
    forall u
      ensures Fires(sv, page, u) == Fires(sw, page, u)
    {
      if u != t {
        assert PageToggle(sv, u) == PageToggle(s, u) == PageToggle(sw, u);
      }
    }
    if IgnoredOn(sv, page) {
      var u :| Fires(sv, page, u);
      assert Fires(sw, page, u);
    }
    if IgnoredOn(sw, page) {
      var u :| Fires(sw, page, u);
      assert Fires(sv, page, u);
    }
  }

  /**
   * When the page classifier reports exactly one page type, the feature is
   * off exactly when that type's toggle is `false`: no tie-break between
   * entries is ever needed.
   */
  lemma {:induction false} SinglePageType(s: State, page: Page, t: PageType)
    requires Matches(page, t)
    requires forall u :: u != t ==> !Matches(page, u)
    ensures IgnoredOn(s, page) <==> PageToggle(s, t).StrictlyFalse()
  {
    if IgnoredOn(s, page) {
      var u :| Fires(s, page, u);
      assert u == t;
    } else {
      assert !Fires(s, page, t);
    }
  }
}
