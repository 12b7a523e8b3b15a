/** The page shell of src/App.new.tsx: the scroll-spy that picks the active
    section, the section navigation, the mobile-menu flag and the dark-mode
    theme with its stored preference and root class. The browser values it
    reads (scroll offset, element boxes, local storage, the system colour
    preference) are inputs; the smooth-scroll animation is not modelled. */
module App {
  import opened Common
  import Site

  /** `offsetTop` and `offsetHeight` of a rendered section element. */
  datatype Box = Box(offsetTop: int, offsetHeight: int)

  /** What `document.getElementById` finds: a box per id that is rendered. */
  type Layout = map<string, Box>

  /** The sections the scroll-spy watches, top to bottom. */
  const SpiedSections: seq<string> := ["home", "about", "experience", "projects", "contact"]

  /** Pixels added to `scrollY` to compensate for the fixed header. */
  const HeaderOffset: int := 100

  /** The activation threshold for a scroll offset. */
  function Threshold(scrollY: int): (t: int)
    ensures t - scrollY == HeaderOffset
  {
    scrollY + HeaderOffset
  }

  /** The half-open range `[offsetTop, offsetTop + offsetHeight)` holds `t`. */
  predicate Covers(b: Box, t: int) {
    b.offsetTop <= t < b.offsetTop + b.offsetHeight
  }

  /** Section `s` is rendered and its range holds `t`. */
  predicate Hit(layout: Layout, s: string, t: int) {
    s in layout && Covers(layout[s], t)
  }

  /** The first of `sections`, in order, that is rendered and holds `t`. */
  function FirstHit(sections: seq<string>, layout: Layout, t: int): Option<string> {
    if sections == [] then None
    else if Hit(layout, sections[0], t) then Some(sections[0])
    else FirstHit(sections[1..], layout, t)
  }

  /** A section that holds `t`, with none before it that does, is the first hit. */
  lemma {:induction false} FirstHitAt(sections: seq<string>, layout: Layout, t: int, k: nat)
    requires k < |sections| && Hit(layout, sections[k], t)
    requires forall j :: 0 <= j < k ==> !Hit(layout, sections[j], t)
    ensures FirstHit(sections, layout, t) == Some(sections[k])
  {
    if k > 0 {
      assert !Hit(layout, sections[0], t);
      FirstHitAt(sections[1..], layout, t, k - 1);
    }
  }

  /** Whatever the first hit is, it is a section that holds `t` and no earlier
      section holds `t`; there is no hit exactly when no section holds `t`. */
  lemma {:induction false} FirstHitIsFirst(sections: seq<string>, layout: Layout, t: int)
    ensures FirstHit(sections, layout, t).Some? ==>
      exists k :: 0 <= k < |sections| && sections[k] == FirstHit(sections, layout, t).value
        && Hit(layout, sections[k], t)
        && forall j :: 0 <= j < k ==> !Hit(layout, sections[j], t)
    ensures FirstHit(sections, layout, t).None? <==>
      forall k :: 0 <= k < |sections| ==> !Hit(layout, sections[k], t)
  {
    if sections != [] {
      FirstHitIsFirst(sections[1..], layout, t);
      if !Hit(layout, sections[0], t) {
        var r := FirstHit(sections, layout, t);
        if r.Some? {
          var k :| 0 <= k < |sections[1..]| && sections[1..][k] == r.value
            && Hit(layout, sections[1..][k], t)
            && forall j :: 0 <= j < k ==> !Hit(layout, sections[1..][j], t);
          assert forall j :: 0 <= j < k + 1 ==> !Hit(layout, sections[j], t) by {
            forall j | 0 <= j < k + 1 ensures !Hit(layout, sections[j], t) {
              if j > 0 { assert sections[j] == sections[1..][j - 1]; }
            }
          }
          assert sections[k + 1] == r.value;
        } else {
          forall k | 0 <= k < |sections| ensures !Hit(layout, sections[k], t) {
            if k > 0 { assert sections[k] == sections[1..][k - 1]; }
          }
        }
      }
    }
  }

  /** A section that is not rendered, or whose range misses `t` (in particular
      when `t == offsetTop + offsetHeight`), is never the first hit. */
  lemma FirstHitOnlyCovering(sections: seq<string>, layout: Layout, t: int, s: string)
    requires !Hit(layout, s, t)
    ensures FirstHit(sections, layout, t) != Some(s)
  {
    FirstHitIsFirst(sections, layout, t);
  }

  /** The active section after a scroll event at `scrollY`: the first hit at
      the threshold, or the previous one when no section holds it. */
  function NextActive(previous: string, layout: Layout, scrollY: int): string {
    match FirstHit(SpiedSections, layout, Threshold(scrollY))
    case Some(s) => s
    case None => previous
  }

  /** Handling the same scroll event twice changes nothing the second time. */
  lemma NextActiveIdempotent(previous: string, layout: Layout, scrollY: int)
    ensures NextActive(NextActive(previous, layout, scrollY), layout, scrollY)
      == NextActive(previous, layout, scrollY)
  {
  }

  /** The outcome of a scroll event: a watched section whose range holds the
      threshold, with no earlier one that does, becomes active; when no watched
      section holds it, the previous value stays. */
  lemma NextActiveSpec(previous: string, layout: Layout, scrollY: int)
    ensures var r := NextActive(previous, layout, scrollY);
      r == previous || (r in SpiedSections && Hit(layout, r, Threshold(scrollY)))
    ensures (forall k :: 0 <= k < |SpiedSections| ==> !Hit(layout, SpiedSections[k], Threshold(scrollY)))
      ==> NextActive(previous, layout, scrollY) == previous
    ensures forall k | 0 <= k < |SpiedSections| ::
              Hit(layout, SpiedSections[k], Threshold(scrollY))
              && (forall j :: 0 <= j < k ==> !Hit(layout, SpiedSections[j], Threshold(scrollY)))
              ==> NextActive(previous, layout, scrollY) == SpiedSections[k]
  {
    var t := Threshold(scrollY);
    FirstHitIsFirst(SpiedSections, layout, t);
    forall k | 0 <= k < |SpiedSections| && Hit(layout, SpiedSections[k], t)
      && (forall j :: 0 <= j < k ==> !Hit(layout, SpiedSections[j], t))
      ensures NextActive(previous, layout, scrollY) == SpiedSections[k]
    {
      FirstHitAt(SpiedSections, layout, t, k);
    }
  }

  /** The worked example: with home on [0, 500) and about on [500, 1200), a
      scroll offset of 450 puts the threshold at 550, inside about; an offset
      of 400 puts it exactly at the end of home, which is then not selected;
      an offset of -150 is above every section and keeps the previous value. */
  lemma ScrollExample()
    ensures var layout := map["home" := Box(0, 500), "about" := Box(500, 700), "contact" := Box(1200, 800)];
      && NextActive("home", layout, 450) == "about"
      && NextActive("home", layout, 400) == "about"
      && NextActive("contact", layout, -150) == "contact"
  {
  }

  /** The dark-mode decision taken once on load: dark when the stored theme is
      `'dark'`, or when no theme is stored and the system prefers dark. */
  predicate InitialDark(storedTheme: Option<string>, systemPrefersDark: bool) {
    storedTheme == Some("dark") || (storedTheme.None? && systemPrefersDark)
  }

  /** A stored theme decides on its own (a stored `'light'` overrides a system
      preference for dark); the system preference decides only when nothing is
      stored. */
  lemma InitialDarkCases(storedTheme: Option<string>, systemPrefersDark: bool)
    ensures storedTheme.Some? ==> (InitialDark(storedTheme, systemPrefersDark) <==> storedTheme.value == "dark")
    ensures storedTheme.None? ==> (InitialDark(storedTheme, systemPrefersDark) <==> systemPrefersDark)
  {
  }

  /** The value written to `localStorage.theme` for a dark-mode flag. */
  function ThemeName(dark: bool): string {
    if dark then "dark" else "light"
  }

  /** The three pieces of theme state: the flag, the stored theme and whether
      the root element has the `dark` class. */
  datatype Theme = Theme(dark: bool, stored: Option<string>, rootDark: bool)

  /** Storage and root class agree with the flag (true after any toggle). */
  predicate Consistent(t: Theme) {
    t.stored == Some(ThemeName(t.dark)) && t.rootDark == t.dark
  }

  /** `toggleDarkMode` on theme values. */
  function Toggled(t: Theme): Theme {
    Theme(!t.dark, Some(ThemeName(!t.dark)), !t.dark)
  }

  /** A toggle flips the flag and leaves storage and root class in step with
      it; toggling twice restores the flag, and restores all three when they
      were in step before. */
  lemma ToggleTwice(t: Theme)
    ensures Toggled(t).dark == !t.dark && Consistent(Toggled(t))
    ensures Toggled(Toggled(t)).dark == t.dark
    ensures Consistent(t) ==> Toggled(Toggled(t)) == t
  {
  }

  /** Reads the spied sections in order and returns the first one whose range
      holds the threshold, as the `for` loop with its `break` does. */
  method ScanSections(layout: Layout, scrollY: int) returns (found: Option<string>)
    ensures found == FirstHit(SpiedSections, layout, Threshold(scrollY))
  {
    var sections := SpiedSections;
    var scrollPosition := scrollY + HeaderOffset;
    found := None;
    var i := 0;
    while i < |sections|
      invariant 0 <= i <= |sections|
      invariant found == None
      invariant FirstHit(sections, layout, scrollPosition) == FirstHit(sections[i..], layout, scrollPosition)
    {
      var section := sections[i];
      assert sections[i..][1..] == sections[i + 1..];
      if section in layout {
        var offsetTop := layout[section].offsetTop;
        var offsetHeight := layout[section].offsetHeight;
        if scrollPosition >= offsetTop && scrollPosition < offsetTop + offsetHeight {
          found := Some(section);
          break;
        }
      }
      i := i + 1;
    }
  }

  /** The state of the page shell. Storage and the root element's class list
      are fields here, not browser objects. */
  class Controller {
    var darkMode: bool
    var mobileMenuOpen: bool
    var activeSection: string
    /** `localStorage.theme`, absent when never written. */
    var storedTheme: Option<string>
    /** `document.documentElement` carries the `dark` class. */
    var rootDark: bool

    function ThemeState(): Theme
      reads this
    {
      Theme(darkMode, storedTheme, rootDark)
    }

    /** The state hooks' initial values, over the storage and root class the
        page finds. */
    constructor (storedTheme: Option<string>, rootDark: bool)
      ensures !darkMode && !mobileMenuOpen && activeSection == "home"
      ensures this.storedTheme == storedTheme && this.rootDark == rootDark
    {
      darkMode := false;
      mobileMenuOpen := false;
      activeSection := "home";
      this.storedTheme := storedTheme;
      this.rootDark := rootDark;
    }

    /** The effect run once on load; it reads storage but never writes it. */
    method ApplyInitialTheme(systemPrefersDark: bool)
      modifies this`darkMode, this`rootDark
      ensures darkMode == InitialDark(storedTheme, systemPrefersDark)
      ensures rootDark == darkMode
    {
      if storedTheme == Some("dark") || (storedTheme.None? && systemPrefersDark) {
        darkMode := true;
        rootDark := true;
      } else {
        darkMode := false;
        rootDark := false;
      }
    }

    method ToggleDarkMode()
      modifies this`darkMode, this`storedTheme, this`rootDark
      ensures ThemeState() == Toggled(old(ThemeState()))
      ensures darkMode == !old(darkMode)
      ensures storedTheme == Some(if darkMode then "dark" else "light")
      ensures rootDark == darkMode
    {
      if darkMode {
        storedTheme := Some("light");
        rootDark := false;
      } else {
        storedTheme := Some("dark");
        rootDark := true;
      }
      darkMode := !darkMode;
    }

    /** Navigation from a menu entry: no check that `section` is spied. */
    method ScrollToSection(section: string)
      modifies this`activeSection, this`mobileMenuOpen
      ensures activeSection == section && !mobileMenuOpen
    {
      activeSection := section;
      mobileMenuOpen := false;
    }

    /** The menu button. */
    method ToggleMobileMenu()
      modifies this`mobileMenuOpen
      ensures mobileMenuOpen == !old(mobileMenuOpen)
    {
      mobileMenuOpen := !mobileMenuOpen;
    }

    /** The logo and the mobile "Contact Me" link. */
    method CloseMobileMenu()
      modifies this`mobileMenuOpen
      ensures !mobileMenuOpen
    {
      mobileMenuOpen := false;
    }

    /** The window scroll listener. */
    method HandleScroll(layout: Layout, scrollY: int)
      modifies this`activeSection
      ensures activeSection == NextActive(old(activeSection), layout, scrollY)
    {
      var found := ScanSections(layout, scrollY);
      if found.Some? {
        activeSection := found.value;
      }
    }
  }

  /** Two configured navigation targets, `skills` and `education`, are not
      spied sections: `ScrollToSection` makes them active, and afterwards only
      a scroll event that hits a spied section replaces them. */
  lemma NavTargetsOutsideSpy()
    ensures |Site.SiteNavLinks| == 6
    ensures Site.SiteNavLinks[3].href == "skills" && Site.SiteNavLinks[4].href == "education"
    ensures "skills" !in SpiedSections && "education" !in SpiedSections
    ensures forall i :: 0 <= i < |Site.SiteNavLinks| && i != 3 && i != 4 ==> Site.SiteNavLinks[i].href in SpiedSections
  {
  }
}
