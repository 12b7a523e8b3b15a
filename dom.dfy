/** The one piece of document state that several handlers write:
    `document.body.style.overflow`, which locks page scrolling while the
    mobile menu or the project modal is shown. */
module Dom {

  /** The values the site writes to `overflow`; `Unset` is the empty inline
      style the page starts with. */
  datatype Overflow = Unset | Hidden | Auto

  class Body {
    var overflow: Overflow

    constructor ()
      ensures overflow == Unset
    {
      overflow := Unset;
    }
  }
}
