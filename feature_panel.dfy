/** The feature panel on the landing page: clicking a feature button starts a
    300 ms animation and sets the body's theme class at once; when the timer
    fires the feature becomes active and the animation ends. Only the
    committed active feature is compared on a click. */
module FeaturePanel {
  import opened Common

  /** The keys of the feature table, in display order. */
  const FeatureKeys: seq<string> := ["mempool", "opreturn", "drivechain"]

  class Panel {
    var activeFeature: Option<string>
    var isAnimating: bool
    /** `document.body.className`. */
    var bodyClass: string
    /** Features whose 300 ms timers are scheduled and not yet fired. All
        timers have the same delay, so they fire in the order they were set. */
    var pending: seq<string>

    constructor(body: string)
      ensures activeFeature == None && !isAnimating && bodyClass == body && pending == []
    {
      activeFeature := None;
      isAnimating := false;
      bodyClass := body;
      pending := [];
    }

    /** The feature content is shown when no animation runs and a feature is active. */
    predicate ContentVisible()
      reads this
    {
      !isAnimating && activeFeature.Some?
    }

    /** `handleFeatureClick(feature)`. */
    method Click(feature: string)
      requires feature in FeatureKeys
      modifies this
      ensures old(activeFeature) == Some(feature) ==>
        isAnimating == old(isAnimating) && bodyClass == old(bodyClass) && pending == old(pending)
      ensures old(activeFeature) != Some(feature) ==>
        isAnimating && bodyClass == "theme-" + feature && pending == old(pending) + [feature]
      ensures activeFeature == old(activeFeature)
    {
      if activeFeature == Some(feature) {
        return;
      }
      isAnimating := true;
      bodyClass := "theme-" + feature;
      pending := pending + [feature];
    }

    /** The earliest scheduled timer fires. */
    method TimerFired()
      requires pending != []
      modifies this
      ensures activeFeature == Some(old(pending)[0]) && !isAnimating
      ensures pending == old(pending)[1..] && bodyClass == old(bodyClass)
      ensures ContentVisible()
    {
      activeFeature := Some(pending[0]);
      isAnimating := false;
      pending := pending[1..];
    }
  }

  /** Clicking the committed feature again changes nothing. */
  method ClickActiveIsNoOp(p: Panel, feature: string)
    requires p.activeFeature == Some(feature) && feature in FeatureKeys
    modifies p
    ensures p.activeFeature == old(p.activeFeature) && p.isAnimating == old(p.isAnimating)
    ensures p.bodyClass == old(p.bodyClass) && p.pending == old(p.pending)
  {
    p.Click(feature);
  }

  /** A second click on a feature whose timer has not fired yet is not ignored:
      it schedules a second timer. */
  method ReclickBeforeTimer() returns (p: Panel)
    ensures p.pending == ["mempool", "mempool"] && p.activeFeature == None && p.isAnimating
  {
    p := new Panel("");
    p.Click("mempool");
    p.Click("mempool");
  }

  /** Two quick clicks on different features, then the first timer: it shows
      the first feature's content, and hides the running animation, although
      the body already carries the second feature's class. */
  method FirstTimerShowsFirstFeature() returns (p: Panel)
    ensures fresh(p)
    ensures p.activeFeature == Some("mempool") && p.ContentVisible()
    ensures p.bodyClass == "theme-opreturn" && p.pending == ["opreturn"]
  {
    p := new Panel("");
    p.Click("mempool");
    p.Click("opreturn");
    p.TimerFired();
  }

  /** After the same two clicks, the last timer decides the final feature. */
  method LastTimerWins() returns (p: Panel)
    ensures p.activeFeature == Some("opreturn") && p.bodyClass == "theme-opreturn" && p.pending == []
  {
    p := FirstTimerShowsFirstFeature();
    p.TimerFired();
  }
}
