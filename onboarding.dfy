/** The onboarding page's feature showcase: three features, one active. A 5 s
    interval advances the active index with wrap-around; a tab click or a
    hover over a grid card sets it directly. The showcase colour depends on
    the theme name reported by the theme library. */
module Onboarding {
  import opened Common

  datatype Feature = Feature(title: string, colorLight: string, colorDark: string)

  const Features: seq<Feature> := [
    Feature("Mempool Analytics", "#3B82F6", "#60A5FA"),
    Feature("OP_Return Tracking", "#EC4899", "#F472B6"),
    Feature("Drivechain Metrics", "#10B981", "#34D399")]

  /** The colour of the active feature: the dark one only for the theme name
      `dark`; any other name, or none yet, selects the light one. */
  function FeatureColor(f: Feature, theme: Option<string>): (c: string)
    ensures c == f.colorDark || c == f.colorLight
    ensures theme == None ==> c == f.colorLight
  {
    if theme == Some("dark") then f.colorDark else f.colorLight
  }

  /** For every listed feature the dark colour is chosen exactly when the theme is `dark`. */
  lemma FeatureColorChoice(i: nat, theme: Option<string>)
    requires i < |Features|
    ensures FeatureColor(Features[i], theme) == Features[i].colorDark <==> theme == Some("dark")
    ensures theme == None ==> FeatureColor(Features[i], theme) == Features[i].colorLight
  {
    var f := Features[i];
    assert f.colorDark[1] != f.colorLight[1];
  }

  class OnboardingPage {
    var activeFeature: nat

    predicate Valid()
      reads this
    {
      activeFeature < |Features|
    }

    constructor()
      ensures activeFeature == 0 && Valid()
    {
      activeFeature := 0;
    }

    /** The 5-second interval. */
    method Tick()
      requires Valid()
      modifies this
      ensures activeFeature == Next(old(activeFeature), |Features|)
      ensures Valid()
    {
      activeFeature := (activeFeature + 1) % |Features|;
    }

    /** A tab click or a grid-card hover: the index comes from the feature list's own indices. */
    method SelectFeature(i: nat)
      requires i < |Features|
      modifies this
      ensures activeFeature == i && Valid()
    {
      activeFeature := i;
    }

    /** Which tabs are styled active: exactly one, the active feature's. */
    function ActiveTabs(): (flags: seq<bool>)
      reads this
      requires Valid()
      ensures |flags| == |Features| && CountTrue(flags) == 1
      ensures forall i :: 0 <= i < |flags| ==> (flags[i] <==> i == activeFeature)
    {
      ExactlyOneActive(|Features|, activeFeature);
      ActiveFlags(|Features|, activeFeature)
    }

    /** The colour of the showcase for the active feature. */
    function ShowcaseColor(theme: Option<string>): (c: string)
      reads this
      requires Valid()
      ensures c == Features[activeFeature].colorDark || c == Features[activeFeature].colorLight
    {
      FeatureColor(Features[activeFeature], theme)
    }
  }

  /** Starting from any feature, the rotation visits the other two before
      returning: the features shown after the first and the second tick are
      returned, and differ from the start and from each other. */
  method FullRotation(p: OnboardingPage) returns (afterOne: nat, afterTwo: nat)
    requires p.Valid()
    modifies p
    ensures afterOne != old(p.activeFeature) && afterTwo != old(p.activeFeature) && afterOne != afterTwo
    ensures afterOne < |Features| && afterTwo < |Features|
    ensures p.activeFeature == old(p.activeFeature) && p.Valid()
  {
    var start := p.activeFeature;
    p.Tick();
    afterOne := p.activeFeature;
    p.Tick();
    afterTwo := p.activeFeature;
    p.Tick();
    assert afterOne == Advance(start, 3, 1);
    assert afterTwo == Advance(start, 3, 2);
    assert p.activeFeature == Advance(start, 3, 3);
    NoEarlyReturn(start, 3, 1);
    NoEarlyReturn(start, 3, 2);
    NoEarlyReturn(afterOne, 3, 1);
    FullCycle(start, 3);
  }
}
