/** The theme provider: light/dark mode, a colour scheme, the root element's
    class list and `--theme-color` property, and the brief theme-change
    overlay flag. React effects are methods the caller runs after the state
    they depend on changes; the 500 ms timer is an event method. */
module Theme {
  import opened Common

  datatype Mode = Dark | Light
  datatype ColorScheme = Default | DrivechainScheme | MempoolScheme | OpReturnScheme | MemecoinScheme | ModelScheme

  /** The class name of a mode. */
  function ModeName(m: Mode): string {
    if m == Dark then "dark" else "light"
  }

  /** The mode `toggleMode` switches to. */
  function Toggle(m: Mode): (r: Mode)
    ensures r != m
  {
    if m == Dark then Light else Dark
  }

  lemma ToggleTwice(m: Mode)
    ensures Toggle(Toggle(m)) == m
  {
  }

  predicate IsHexColor(c: string) {
    |c| == 7 && c[0] == '#'
  }

  /** `getThemeColor`: one dark and one light colour per scheme. */
  function ThemeColor(scheme: ColorScheme, mode: Mode): (c: string)
    ensures IsHexColor(c)
  {
    var dark := mode == Dark;
    match scheme
    case Default => if dark then "#f7931a" else "#B3261E"
    case DrivechainScheme => if dark then "#6366f1" else "#2A4E76"
    case MempoolScheme => if dark then "#22c55e" else "#166534"
    case OpReturnScheme => if dark then "#f43f5e" else "#BE123C"
    case MemecoinScheme => if dark then "#d946ef" else "#A21CAF"
    case ModelScheme => if dark then "#3b82f6" else "#1D4ED8"
  }

  /** In every scheme the two modes get different colours. */
  lemma DarkDiffersFromLight(scheme: ColorScheme)
    ensures ThemeColor(scheme, Dark) != ThemeColor(scheme, Light)
  {
    var d := ThemeColor(scheme, Dark);
    var l := ThemeColor(scheme, Light);
    match scheme
    case Default => assert d[1] != l[1];
    case DrivechainScheme => assert d[1] != l[1];
    case MempoolScheme => assert d[2] != l[2];
    case OpReturnScheme => assert d[1] != l[1];
    case MemecoinScheme => assert d[1] != l[1];
    case ModelScheme => assert d[1] != l[1];
  }

  lemma DefaultColors()
    ensures ThemeColor(Default, Dark) == "#f7931a" && ThemeColor(Default, Light) == "#B3261E"
  {
  }

  /** `classList.remove(t)`: every occurrence of the token goes, the rest keep their order. */
  function RemoveToken(classes: seq<string>, t: string): (r: seq<string>)
    ensures |r| <= |classes|
    ensures forall x :: x in r <==> x in classes && x != t
  {
    if classes == [] then []
    else if classes[0] == t then RemoveToken(classes[1..], t)
    else [classes[0]] + RemoveToken(classes[1..], t)
  }

  /** `classList.add(t)`: appended unless already present. */
  function AddToken(classes: seq<string>, t: string): (r: seq<string>)
    ensures forall x :: x in r <==> x in classes || x == t
    ensures t in classes ==> r == classes
  {
    if t in classes then classes else classes + [t]
  }

  /** Lines 48-49 of the apply effect: remove both mode classes, add the current one. */
  function ApplyModeClass(classes: seq<string>, mode: Mode): (r: seq<string>)
    ensures |r| <= |classes| + 1
    ensures |r| > 0 && r[|r| - 1] == ModeName(mode)
  {
    AddToken(RemoveToken(RemoveToken(classes, "light"), "dark"), ModeName(mode))
  }

  /** After the swap the current mode's class is present, the other mode's is
      not, and every other class is present exactly when it was before. */
  lemma ApplyModeClassMeaning(classes: seq<string>, mode: Mode)
    ensures ModeName(mode) in ApplyModeClass(classes, mode)
    ensures ModeName(Toggle(mode)) !in ApplyModeClass(classes, mode)
    ensures forall x :: x != "light" && x != "dark" ==> (x in ApplyModeClass(classes, mode) <==> x in classes)
  {
  }

  /** Re-applying the same mode does not change the class list again. */
  lemma {:induction false} ApplyModeClassIdempotent(classes: seq<string>, mode: Mode)
    ensures ApplyModeClass(ApplyModeClass(classes, mode), mode) == ApplyModeClass(classes, mode)
  {
    var once := ApplyModeClass(classes, mode);
    var other := ModeName(Toggle(mode));
    var stripped := RemoveToken(RemoveToken(classes, "light"), "dark");
    assert once == stripped + [ModeName(mode)];
    NoTokenRemoveIsIdentity(stripped, other);
    assert RemoveToken(once, other) == once by {
      NoTokenRemoveIsIdentity(once, other);
    }
    var m := ModeName(mode);
    assert RemoveToken(once, m) == stripped by {
      RemoveLast(stripped, m);
    }
    if mode == Dark {
      assert RemoveToken(RemoveToken(once, "light"), "dark") == stripped;
    } else {
      RemoveCommutes(once, "light", "dark");
      assert RemoveToken(RemoveToken(once, "dark"), "light") == stripped by {
        NoTokenRemoveIsIdentity(stripped, "light");
      }
    }
  }

  lemma {:induction false} NoTokenRemoveIsIdentity(classes: seq<string>, t: string)
    requires t !in classes
    ensures RemoveToken(classes, t) == classes
  {
    if classes != [] {
      NoTokenRemoveIsIdentity(classes[1..], t);
      assert [classes[0]] + classes[1..] == classes;
    }
  }

  lemma {:induction false} RemoveLast(classes: seq<string>, t: string)
    requires t !in classes
    ensures RemoveToken(classes + [t], t) == classes
  {
    if classes == [] {
      assert [t][1..] == [];
    } else {
      assert (classes + [t])[1..] == classes[1..] + [t];
      RemoveLast(classes[1..], t);
      assert [classes[0]] + classes[1..] == classes;
    }
  }

  lemma {:induction false} RemoveCommutes(classes: seq<string>, a: string, b: string)
    ensures RemoveToken(RemoveToken(classes, a), b) == RemoveToken(RemoveToken(classes, b), a)
  {
    if classes != [] {
      RemoveCommutes(classes[1..], a, b);
    }
  }

  class ThemeProvider {
    var mode: Mode
    var colorScheme: ColorScheme
    var mounted: bool
    var isChangingTheme: bool
    /** Overlay-clearing timers scheduled by theme-change events and not yet fired. */
    var pendingTimers: nat
    /** The root element's class list and its `--theme-color` property (unset before the first apply). */
    var rootClasses: seq<string>
    var themeColorProperty: Option<string>

    /** The provider renders its children only once mounted; before that it renders nothing. */
    predicate Renders()
      reads this
    {
      mounted
    }

    constructor(classes: seq<string>)
      ensures mode == Dark && colorScheme == Default && !mounted && !isChangingTheme
      ensures pendingTimers == 0 && rootClasses == classes && themeColorProperty == None
      ensures !Renders()
    {
      mode := Dark;
      colorScheme := Default;
      mounted := false;
      isChangingTheme := false;
      pendingTimers := 0;
      rootClasses := classes;
      themeColorProperty := None;
    }

    /** The mount effect: the mode follows the system dark preference. */
    method Mount(prefersDark: bool)
      modifies this
      ensures mode == (if prefersDark then Dark else Light) && mounted && Renders()
      ensures colorScheme == old(colorScheme) && isChangingTheme == old(isChangingTheme)
      ensures pendingTimers == old(pendingTimers)
      ensures rootClasses == old(rootClasses) && themeColorProperty == old(themeColorProperty)
    {
      mode := if prefersDark then Dark else Light;
      mounted := true;
    }

    /** The apply effect: once mounted, swap the mode class and set the colour property. */
    method ApplyEffect()
      modifies this
      ensures old(mounted) ==> rootClasses == ApplyModeClass(old(rootClasses), mode)
      ensures old(mounted) ==> themeColorProperty == Some(ThemeColor(colorScheme, mode))
      ensures !old(mounted) ==> rootClasses == old(rootClasses) && themeColorProperty == old(themeColorProperty)
      ensures mode == old(mode) && colorScheme == old(colorScheme) && mounted == old(mounted)
      ensures isChangingTheme == old(isChangingTheme) && pendingTimers == old(pendingTimers)
    {
      if mounted {
        rootClasses := RemoveToken(RemoveToken(rootClasses, "light"), "dark");
        rootClasses := AddToken(rootClasses, ModeName(mode));
        themeColorProperty := Some(ThemeColor(colorScheme, mode));
      }
    }

    /** `toggleMode`. */
    method ToggleMode()
      modifies this
      ensures mode == Toggle(old(mode))
      ensures colorScheme == old(colorScheme) && mounted == old(mounted)
      ensures isChangingTheme == old(isChangingTheme) && pendingTimers == old(pendingTimers)
      ensures rootClasses == old(rootClasses) && themeColorProperty == old(themeColorProperty)
    {
      mode := if mode == Dark then Light else Dark;
    }

    /** `setColorScheme`. */
    method SetColorScheme(scheme: ColorScheme)
      modifies this
      ensures colorScheme == scheme
      ensures mode == old(mode) && mounted == old(mounted)
      ensures isChangingTheme == old(isChangingTheme) && pendingTimers == old(pendingTimers)
      ensures rootClasses == old(rootClasses) && themeColorProperty == old(themeColorProperty)
    {
      colorScheme := scheme;
    }

    /** A `themechange` window event: show the overlay and schedule its removal. */
    method ThemeChangeEvent()
      modifies this
      ensures isChangingTheme && pendingTimers == old(pendingTimers) + 1
      ensures mode == old(mode) && colorScheme == old(colorScheme) && mounted == old(mounted)
      ensures rootClasses == old(rootClasses) && themeColorProperty == old(themeColorProperty)
    {
      isChangingTheme := true;
      pendingTimers := pendingTimers + 1;
    }

    /** The 500 ms timer fires. */
    method ThemeTimerFired()
      requires pendingTimers > 0
      modifies this
      ensures !isChangingTheme && pendingTimers == old(pendingTimers) - 1
      ensures mode == old(mode) && colorScheme == old(colorScheme) && mounted == old(mounted)
      ensures rootClasses == old(rootClasses) && themeColorProperty == old(themeColorProperty)
    {
      isChangingTheme := false;
      pendingTimers := pendingTimers - 1;
    }
  }

  /** A toggle followed by the apply effect leaves exactly the new mode's class on the root. */
  method ToggleAndApply(p: ThemeProvider)
    requires p.mounted
    modifies p
    ensures p.mode == Toggle(old(p.mode))
    ensures ModeName(p.mode) in p.rootClasses && ModeName(old(p.mode)) !in p.rootClasses
  {
    p.ToggleMode();
    p.ApplyEffect();
    ApplyModeClassMeaning(old(p.rootClasses), p.mode);
  }
}
