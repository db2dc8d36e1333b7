/**
 * The Settings object: it holds a configuration snapshot and answers, for
 * the current page, whether the hide feature is off, whether watched videos
 * are hidden, and at which watch percentage a video counts as viewed.
 */
module Policy {
  import opened Snapshot

  /** The threshold used when no custom threshold is enabled: only a fully watched video counts. */
  const FullyWatched: int := 100

  /** The range the view-threshold slider is meant to stay in. */
  predicate InPercentRange(p: int) {
    1 <= p <= 100
  }

  class Settings {
    /** The snapshot every query reads; only the constructor and Load replace it. */
    var state: State

    /** Starts from the default snapshot; the load the constructor issues completes later through Load. */
    constructor (defaults: State)
      ensures state == defaults
    {
      state := defaults;
    }

    /**
     * Reports whether the hide feature is off on the current page: the
     * filters table is scanned in its own order and the first entry whose
     * toggle is exactly `false` and whose page type is the current one
     * decides. The answer is the same for any scan order (ScanAnyOrder).
     */
    method Ignored(page: Page) returns (r: bool)
      ensures r == IgnoredOn(state, page)
      ensures r == ScanFilters(state, page, FilterOrder)
    {
      for i := 0 to |FilterOrder|
        invariant forall j :: 0 <= j < i ==> !Fires(state, page, FilterOrder[j])
      {
        var t := FilterOrder[i];
        if PageToggle(state, t).StrictlyFalse() && Matches(page, t) {
          assert Fires(state, page, FilterOrder[i]);
          return true;
        }
      }
      forall t
        ensures !Fires(state, page, t)
      {
        assert FilterOrder[FilterIndex(t)] == t;
      }
      return false;
    }

    /**
     * Reports whether watched videos on the current page are hidden: a
     * bookmark stored for the page's path wins, even against the universal
     * toggle; without one the universal Hide Videos toggle decides.
     */
    function Hidden(page: Page): (r: bool)
      reads this
      ensures page.path in state.bookmarks ==> r == state.bookmarks[page.path]
      ensures page.path !in state.bookmarks ==> r == state.hideVideos
    {
      var bookmarks := state.bookmarks;
      if page.path in bookmarks then bookmarks[page.path] else state.hideVideos
    }

    /**
     * The minimum watch percentage of a viewed video: the slider value,
     * passed through unclamped, when the threshold checkbox is exactly
     * `true`, and 100 otherwise. It stays in [1, 100] whenever the slider
     * value does.
     */
    function Threshold(): (r: int)
      reads this
      ensures state.thresholdEnabled.StrictlyTrue() ==> r == state.thresholdPercent
      ensures !state.thresholdEnabled.StrictlyTrue() ==> r == FullyWatched
      ensures InPercentRange(state.thresholdPercent) ==> InPercentRange(r)
    {
      var enabled := state.thresholdEnabled.StrictlyTrue();
      var percent := state.thresholdPercent;
      if enabled then percent else FullyWatched
    }

    /** Installs the snapshot delivered by browser storage, replacing the old one wholesale. */
    method Load(values: State)
      modifies this
      ensures state == values
    {
      state := values;
    }
  }

  /** The hidden answer depends on the page's path only, never on its page type. */
  lemma HiddenDependsOnPathOnly(settings: Settings, p: Page, q: Page)
    requires p.path == q.path
    ensures settings.Hidden(p) == settings.Hidden(q)
  {
  }

  /**
   * The hidden answer reads nothing but the universal toggle and the
   * bookmark for the current path: bookmarks of other paths, the page-type
   * toggles and the threshold do not affect it.
   */
  lemma HiddenLocal(a: Settings, b: Settings, page: Page)
    requires a.state.hideVideos == b.state.hideVideos
    requires page.path in a.state.bookmarks <==> page.path in b.state.bookmarks
    requires page.path in a.state.bookmarks ==> a.state.bookmarks[page.path] == b.state.bookmarks[page.path]
    ensures a.Hidden(page) == b.Hidden(page)
  {
  }

  /** A bookmark stored for the current path is the answer there, even when it disagrees with the universal toggle. */
  lemma BookmarkOverridesUniversal(settings: Settings, page: Page)
    requires page.path in settings.state.bookmarks
    requires settings.state.bookmarks[page.path] != settings.state.hideVideos
    ensures settings.Hidden(page) == settings.state.bookmarks[page.path]
    ensures settings.Hidden(page) != settings.state.hideVideos
  {
  }

  /**
   * Loading the same delivered snapshot a second time leaves every answer
   * as the first load left it.
   */
  method ReloadIsIdempotent(settings: Settings, values: State, page: Page)
    returns (before: (bool, bool, int), after: (bool, bool, int))
    modifies settings
    ensures settings.state == values
    ensures before == after
    ensures after == (IgnoredOn(values, page), settings.Hidden(page), settings.Threshold())
  {
    settings.Load(values);
    var ignored := settings.Ignored(page);
    before := (ignored, settings.Hidden(page), settings.Threshold());
    settings.Load(values);
    ignored := settings.Ignored(page);
    after := (ignored, settings.Hidden(page), settings.Threshold());
  }
}
