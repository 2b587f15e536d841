/** The landing page's scroll handler: a scroll progress capped at 1 and the
    section the viewport is in. Window and document measurements are
    parameters of the scroll event. */
module Landing {

  datatype Section = Hero | Features | Cta

  /** The order of the sections down the page. */
  function Rank(s: Section): nat {
    match s
    case Hero => 0
    case Features => 1
    case Cta => 2
  }

  /** The section classifier of the scroll handler: hero above half a screen,
      features for the next screen, cta below. */
  function SectionAt(scrollY: real, winHeight: real): (r: Section)
    ensures winHeight >= 0.0 ==> (r == Features <==> 0.5 * winHeight <= scrollY < 1.5 * winHeight)
    ensures scrollY < 0.0 && winHeight >= 0.0 ==> r == Hero
  {
    if scrollY < winHeight * 0.5 then Hero
    else if scrollY < winHeight * 1.5 then Features
    else Cta
  }

  /** Hero is the first half screen, features the next screen, cta everything below. */
  lemma SectionBands(scrollY: real, winHeight: real)
    requires winHeight >= 0.0
    ensures SectionAt(scrollY, winHeight) == Hero <==> scrollY < 0.5 * winHeight
    ensures SectionAt(scrollY, winHeight) == Features <==> 0.5 * winHeight <= scrollY < 1.5 * winHeight
    ensures SectionAt(scrollY, winHeight) == Cta <==> scrollY >= 1.5 * winHeight
  {
  }

  /** Scrolling further down never yields an earlier section, whatever the window height. */
  lemma SectionMonotone(y1: real, y2: real, winHeight: real)
    requires y1 <= y2
    ensures Rank(SectionAt(y1, winHeight)) <= Rank(SectionAt(y2, winHeight))
  {
    if winHeight < 0.0 {
      assert winHeight * 1.5 < winHeight * 0.5;
    }
  }

  /** The value `Math.min(scrollY / total, 1)` takes. With a zero divisor the
      division gives an infinity or NaN: a positive scroll gives +infinity,
      which the minimum turns into 1; zero over zero is NaN, which the minimum
      propagates; a negative scroll gives -infinity, which it keeps. */
  datatype Progress = Ratio(value: real) | NaN | NegInfinity

  function ScrollProgress(scrollY: real, winHeight: real, docHeight: real): (p: Progress)
    ensures p.Ratio? ==> p.value <= 1.0
    ensures docHeight != winHeight ==> p.Ratio?
    ensures docHeight != winHeight && scrollY / (docHeight - winHeight) <= 1.0 ==>
      p == Ratio(scrollY / (docHeight - winHeight))
    ensures docHeight > winHeight && scrollY >= 0.0 ==> p.Ratio? && 0.0 <= p.value
    ensures docHeight == winHeight ==>
      (p == Ratio(1.0) <==> scrollY > 0.0) && (p == NaN <==> scrollY == 0.0) && (p == NegInfinity <==> scrollY < 0.0)
  {
    var total := docHeight - winHeight;
    if total != 0.0 then
      var q := scrollY / total;
      Ratio(if q <= 1.0 then q else 1.0)
    else if scrollY > 0.0 then Ratio(1.0)
    else if scrollY == 0.0 then NaN
    else NegInfinity
  }

  /** Dividing by a positive number gives at least 1 exactly when the dividend is at least the divisor. */
  lemma DivAtLeastOne(a: real, b: real)
    requires b > 0.0
    ensures a / b >= 1.0 <==> a >= b
  {
    assert a == (a / b) * b;
    if a / b >= 1.0 {
      assert (a / b) * b - b == (a / b - 1.0) * b;
    } else {
      assert b - (a / b) * b == (1.0 - a / b) * b;
    }
  }

  /** The progress reaches 1 exactly when the scroll covers the whole scrollable height. */
  lemma ProgressFull(scrollY: real, winHeight: real, docHeight: real)
    requires docHeight > winHeight
    ensures ScrollProgress(scrollY, winHeight, docHeight) == Ratio(1.0) <==> scrollY >= docHeight - winHeight
  {
    var total := docHeight - winHeight;
    DivAtLeastOne(scrollY, total);
    if scrollY >= total {
      assert scrollY / total >= 1.0;
    } else {
      assert scrollY / total < 1.0;
    }
  }

  class HomePage {
    var activeSection: Section
    var scrollProgress: Progress

    constructor()
      ensures activeSection == Hero && scrollProgress == Ratio(0.0)
    {
      activeSection := Hero;
      scrollProgress := Ratio(0.0);
    }

    /** A scroll event. */
    method HandleScroll(scrollY: real, winHeight: real, docHeight: real)
      modifies this
      ensures scrollProgress == ScrollProgress(scrollY, winHeight, docHeight)
      ensures activeSection == SectionAt(scrollY, winHeight)
    {
      scrollProgress := ScrollProgress(scrollY, winHeight, docHeight);
      if scrollY < winHeight * 0.5 {
        activeSection := Hero;
      } else if scrollY < winHeight * 1.5 {
        activeSection := Features;
      } else {
        activeSection := Cta;
      }
    }
  }
}
