/** The standalone header of src/components/Header.tsx: a scroll threshold
    that switches the header's look, and a mobile menu whose open flag is kept
    in step with the scroll lock on the document body. */
module Header {
  import opened Dom

  /** The header's own navigation targets, in display order. */
  datatype HeaderLink = HeaderLink(name: string, to: string)

  const NavLinks: seq<HeaderLink> := [
    HeaderLink("Home", "home"),
    HeaderLink("About", "about"),
    HeaderLink("Experience", "experience"),
    HeaderLink("Projects", "projects"),
    HeaderLink("Contact", "contact")
  ]

  /** Pixels of scroll beyond which the header counts as scrolled. */
  const ScrollThreshold: int := 50

  /** The scroll listener's decision. */
  function IsScrolledAt(scrollY: int): bool {
    scrollY > ScrollThreshold
  }

  /** The header switches exactly once while scrolling down: not at 50, from
      51 on, and never back while the offset grows. */
  lemma ScrolledThreshold(a: int, b: int)
    ensures !IsScrolledAt(50) && IsScrolledAt(51)
    ensures a <= b && IsScrolledAt(a) ==> IsScrolledAt(b)
  {
  }

  /** The header's targets are the five page sections, in page order. */
  lemma NavTargets()
    ensures |NavLinks| == 5
    ensures NavLinks[0].to == "home" && NavLinks[1].to == "about" && NavLinks[2].to == "experience"
      && NavLinks[3].to == "projects" && NavLinks[4].to == "contact"
    ensures forall i, j :: 0 <= i < j < |NavLinks| ==> NavLinks[i].to != NavLinks[j].to
  {
  }

  /** Menu flag and body overflow, the state the menu handlers change. */
  datatype MenuState = MenuState(open: bool, overflow: Overflow)

  /** The scroll lock is on exactly while the menu is open. */
  predicate InStep(s: MenuState) {
    s.overflow == Hidden <==> s.open
  }

  datatype MenuEvent = Toggle | Close

  /** `toggleMobileMenu` and `closeMobileMenu` on state values. */
  function Step(s: MenuState, e: MenuEvent): MenuState {
    match e
    case Toggle => MenuState(!s.open, if !s.open then Hidden else Auto)
    case Close => MenuState(false, Auto)
  }

  function Run(s: MenuState, events: seq<MenuEvent>): MenuState
    decreases events
  {
    if events == [] then s else Run(Step(s, events[0]), events[1..])
  }

  /** A toggle flips the flag and sets the lock to match; a close leaves the
      menu closed and unlocked from any state, and closing twice is closing once. */
  lemma StepFacts(s: MenuState)
    ensures Step(s, Toggle).open == !s.open && InStep(Step(s, Toggle))
    ensures Step(s, Toggle).overflow == (if Step(s, Toggle).open then Hidden else Auto)
    ensures Step(s, Close) == MenuState(false, Auto)
    ensures Step(Step(s, Close), Close) == Step(s, Close)
  {
  }

  /** From the initial closed state with no inline overflow, any sequence of
      toggles and closes keeps the lock in step with the menu. */
  lemma {:induction false} RunInStep(s: MenuState, events: seq<MenuEvent>)
    requires InStep(s)
    ensures InStep(Run(s, events))
    decreases events
  {
    if events != [] {
      RunInStep(Step(s, events[0]), events[1..]);
    }
  }

  lemma InitialRunsInStep(events: seq<MenuEvent>)
    ensures InStep(Run(MenuState(false, Unset), events))
  {
    RunInStep(MenuState(false, Unset), events);
  }

  /** The header component's state, over the shared document body. */
  class HeaderView {
    var isScrolled: bool
    var isMobileMenuOpen: bool
    const body: Body

    function Menu(): MenuState
      reads this, body
    {
      MenuState(isMobileMenuOpen, body.overflow)
    }

    constructor (body: Body)
      ensures this.body == body && !isScrolled && !isMobileMenuOpen
    {
      this.body := body;
      isScrolled := false;
      isMobileMenuOpen := false;
    }

    method HandleScroll(scrollY: int)
      modifies this`isScrolled
      ensures isScrolled == IsScrolledAt(scrollY)
    {
      if scrollY > 50 {
        isScrolled := true;
      } else {
        isScrolled := false;
      }
    }

    method ToggleMobileMenu()
      modifies this`isMobileMenuOpen, body`overflow
      ensures Menu() == Step(old(Menu()), Toggle)
      ensures isMobileMenuOpen == !old(isMobileMenuOpen)
      ensures body.overflow == if isMobileMenuOpen then Hidden else Auto
    {
      var wasOpen := isMobileMenuOpen;
      isMobileMenuOpen := !wasOpen;
      body.overflow := if !wasOpen then Hidden else Auto;
    }

    method CloseMobileMenu()
      modifies this`isMobileMenuOpen, body`overflow
      ensures Menu() == Step(old(Menu()), Close)
      ensures !isMobileMenuOpen && body.overflow == Auto
    {
      isMobileMenuOpen := false;
      body.overflow := Auto;
    }
  }
}
