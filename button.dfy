/** The shared button of src/components/Button.tsx: which element it renders
    (an in-page scroll link, an anchor or a plain button), the class string
    it assembles, and where the icon goes relative to the label. Children
    are modelled as their text and icons by name; an empty text counts as no
    children, as it does in JavaScript. */
module Button {
  import opened Common

  datatype Variant = Primary | Secondary | Outline
  datatype Size = Sm | Md | Lg
  datatype IconPosition = Left | Right

  /** The props as a caller passes them; absent props are `None`. */
  datatype Props = Props(
    children: string,
    variant: Option<Variant>,
    size: Option<Size>,
    href: Option<string>,
    to: Option<string>,
    className: Option<string>,
    download: Option<bool>,
    icon: Option<string>,
    iconPosition: Option<IconPosition>)

  /** The props after the destructuring defaults. */
  datatype Settings = Settings(
    children: string,
    variant: Variant,
    size: Size,
    href: Option<string>,
    to: Option<string>,
    className: string,
    download: bool,
    icon: Option<string>,
    iconPosition: IconPosition)

  function WithDefaults(p: Props): Settings {
    Settings(
      p.children, p.variant.GetOr(Primary), p.size.GetOr(Md), p.href, p.to,
      p.className.GetOr(""), p.download.GetOr(false), p.icon, p.iconPosition.GetOr(Left))
  }

  /** Unset props take the defaults: primary, medium, icon on the left, no
      extra classes, no download; set props are kept. */
  lemma DefaultsSpec(p: Props)
    ensures var s := WithDefaults(p);
      && s.variant == (if p.variant.Some? then p.variant.value else Primary)
      && s.size == (if p.size.Some? then p.size.value else Md)
      && s.iconPosition == (if p.iconPosition.Some? then p.iconPosition.value else Left)
      && s.className == (if p.className.Some? then p.className.value else "")
      && s.download == (p.download.Some? && p.download.value)
      && s.children == p.children && s.href == p.href && s.to == p.to && s.icon == p.icon
  {
  }

  const BaseStyles: string := "inline-flex items-center justify-center rounded-lg font-medium transition-all duration-200 focus:outline-none focus:ring-2 focus:ring-offset-2 focus:ring-blue-500"

  function SizeStyles(size: Size): string {
    match size
    case Sm => "px-4 py-2 text-sm"
    case Md => "px-6 py-3 text-base"
    case Lg => "px-8 py-4 text-lg"
  }

  function VariantStyles(variant: Variant): string {
    match variant
    case Primary => "bg-blue-600 text-white hover:bg-blue-700 focus:ring-blue-500"
    case Secondary => "bg-gray-900 text-white hover:bg-gray-800 focus:ring-gray-500"
    case Outline => "border-2 border-gray-300 text-gray-700 hover:bg-gray-50 focus:ring-blue-500"
  }

  /** `!children && icon`: an icon and no label. */
  predicate IconOnly(s: Settings) {
    s.children == "" && s.icon.Some?
  }

  /** The class template, empty slots and their spaces included. */
  function ButtonClasses(s: Settings): string {
    BaseStyles + " " + SizeStyles(s.size) + " " + VariantStyles(s.variant) + " "
      + (if IconOnly(s) then "p-2" else "") + " " + s.className
  }

  /** The length of the leading run of non-space characters. */
  function WordLength(s: string): (n: nat)
    ensures n <= |s|
    ensures forall i :: 0 <= i < n ==> s[i] != ' '
    ensures n < |s| ==> s[n] == ' '
  {
    if s == [] || s[0] == ' ' then 0 else 1 + WordLength(s[1..])
  }

  /** The class names a browser reads from a class attribute: the words
      between spaces, however many spaces separate them. */
  function Tokens(s: string): seq<string>
    decreases |s|
  {
    if s == [] then []
    else if s[0] == ' ' then Tokens(s[1..])
    else [s[..WordLength(s)]] + Tokens(s[WordLength(s)..])
  }

  lemma {:induction false} WordLengthJoin(a: string, b: string)
    ensures WordLength(a + " " + b) == WordLength(a)
  {
    if a != [] && a[0] != ' ' {
      assert (a + " " + b)[1..] == a[1..] + " " + b;
      WordLengthJoin(a[1..], b);
    }
  }

  /** A space between two strings separates their class names and adds none. */
  lemma {:induction false} TokensJoin(a: string, b: string)
    ensures Tokens(a + " " + b) == Tokens(a) + Tokens(b)
    decreases |a|
  {
    var s := a + " " + b;
    if a == [] {
      assert s[1..] == b;
    } else if a[0] == ' ' {
      assert s[1..] == a[1..] + " " + b;
      TokensJoin(a[1..], b);
    } else {
      var n := WordLength(a);
      WordLengthJoin(a, b);
      assert s[..n] == a[..n];
      assert s[n..] == a[n..] + " " + b;
      TokensJoin(a[n..], b);
    }
  }

  /** A run of characters without spaces is read as one class name. */
  lemma {:induction false} WordLengthAll(w: string)
    requires forall i :: 0 <= i < |w| ==> w[i] != ' '
    ensures WordLength(w) == |w|
  {
    if w != [] {
      WordLengthAll(w[1..]);
    }
  }

  lemma WordAlone(w: string)
    requires w != [] && forall i :: 0 <= i < |w| ==> w[i] != ' '
    ensures Tokens(w) == [w]
  {
    WordLengthAll(w);
    assert w[..|w|] == w && w[|w|..] == [];
  }

  /** A class name followed by a space adds exactly that name in front. */
  lemma TokensAfterWord(w: string, rest: string)
    requires w != [] && forall i :: 0 <= i < |w| ==> w[i] != ' '
    ensures Tokens(w + " " + rest) == [w] + Tokens(rest)
  {
    TokensJoin(w, rest);
    WordAlone(w);
  }

  /** Five slots joined by single spaces read as the names of each slot in turn. */
  lemma TemplateTokens(a: string, b: string, c: string, slot: string, d: string)
    ensures Tokens(a + " " + b + " " + c + " " + slot + " " + d)
      == Tokens(a) + Tokens(b) + Tokens(c) + Tokens(slot) + Tokens(d)
  {
    TokensJoin(a + " " + b + " " + c + " " + slot, d);
    TokensJoin(a + " " + b + " " + c, slot);
    TokensJoin(a + " " + b, c);
    TokensJoin(a, b);
  }

  /** The template's slots, read one by one. */
  lemma ButtonClassesSlots(s: Settings)
    ensures Tokens(ButtonClasses(s)) == Tokens(BaseStyles) + Tokens(SizeStyles(s.size))
      + Tokens(VariantStyles(s.variant)) + Tokens(if IconOnly(s) then "p-2" else "") + Tokens(s.className)
  {
    var slot := if IconOnly(s) then "p-2" else "";
    assert ButtonClasses(s) == BaseStyles + " " + SizeStyles(s.size) + " " + VariantStyles(s.variant)
      + " " + slot + " " + s.className;
    TemplateTokens(BaseStyles, SizeStyles(s.size), VariantStyles(s.variant), slot, s.className);
  }

  lemma PaddingToken(slot: string)
    requires slot == "p-2"
    ensures Tokens(slot) == ["p-2"]
  {
    assert forall i :: 0 <= i < |slot| ==> slot[i] != ' ';
    WordAlone(slot);
  }

  /** The double spaces of the template are harmless: the class names are the
      base, size and variant names, `p-2` exactly for an icon-only button, then
      the caller's own names. */
  lemma ButtonClassesTokens(s: Settings)
    ensures Tokens(ButtonClasses(s)) == Tokens(BaseStyles) + Tokens(SizeStyles(s.size))
      + Tokens(VariantStyles(s.variant)) + (if IconOnly(s) then ["p-2"] else []) + Tokens(s.className)
  {
    ButtonClassesSlots(s);
    if IconOnly(s) {
      PaddingToken("p-2");
    }
  }

  /** One piece of the button's content. */
  datatype Piece = IconSpan(icon: string, spacing: string) | Label(text: string)

  /** The content: the icon span before or after the label, spaced from it
      only when there is a label. */
  function Content(s: Settings): seq<Piece> {
    var text := if s.children != "" then [Label(s.children)] else [];
    match s.icon
    case None => text
    case Some(icon) =>
      if s.iconPosition == Left then [IconSpan(icon, if s.children != "" then "mr-2" else "")] + text
      else text + [IconSpan(icon, if s.children != "" then "ml-2" else "")]
  }

  /** The icon comes first on the left and last on the right, with a margin
      towards the label; without a label it stands alone with no margin. */
  lemma ContentSpec(s: Settings)
    ensures s.icon.None? ==> Content(s) == (if s.children == "" then [] else [Label(s.children)])
    ensures s.icon.Some? && s.children != "" && s.iconPosition == Left
      ==> Content(s) == [IconSpan(s.icon.value, "mr-2"), Label(s.children)]
    ensures s.icon.Some? && s.children != "" && s.iconPosition == Right
      ==> Content(s) == [Label(s.children), IconSpan(s.icon.value, "ml-2")]
    ensures IconOnly(s) <==> s.icon.Some? && Content(s) == [IconSpan(s.icon.value, "")]
  {
  }

  /** Whether an anchor opens in a new tab: `href.startsWith('http')`. */
  predicate IsExternal(href: string) {
    |href| >= 4 && href[..4] == "http"
  }

  /** The element rendered. */
  datatype Element =
    | ScrollLink(to: string, className: string, content: seq<Piece>)
    | Anchor(href: string, className: string, download: bool,
             target: Option<string>, rel: Option<string>, content: seq<Piece>)
    | PlainButton(buttonType: string, className: string, content: seq<Piece>)

  /** A JavaScript string is truthy when it is present and not empty. */
  predicate Truthy(x: Option<string>) {
    x.Some? && x.value != ""
  }

  function Render(p: Props): Element {
    var s := WithDefaults(p);
    var classes := ButtonClasses(s);
    if Truthy(s.to) then ScrollLink(s.to.value, "cursor-pointer " + classes, Content(s))
    else if Truthy(s.href) then
      var external := IsExternal(s.href.value);
      Anchor(s.href.value, classes, s.download,
        if external then Some("_blank") else None,
        if external then Some("noopener noreferrer") else None,
        Content(s))
    else PlainButton("button", classes, Content(s))
  }

  /** A scroll target wins over a link, and a link over a plain button; only
      links starting with `http` open a new tab, and then without opener or
      referrer. Every branch carries the same content, and the scroll link
      adds only `cursor-pointer` to the class names. */
  lemma RenderSpec(p: Props)
    ensures Render(p).content == Content(WithDefaults(p))
    ensures Render(p).ScrollLink? <==> Truthy(p.to)
    ensures Render(p).Anchor? <==> !Truthy(p.to) && Truthy(p.href)
    ensures Render(p).PlainButton? <==> !Truthy(p.to) && !Truthy(p.href)
    ensures Render(p).ScrollLink? ==> Render(p).to == p.to.value
    ensures Render(p).Anchor? ==> Render(p).href == p.href.value && Render(p).className == ButtonClasses(WithDefaults(p))
    ensures Render(p).Anchor? ==> (Render(p).target == Some("_blank") <==> IsExternal(p.href.value))
    ensures Render(p).Anchor? ==> (Render(p).rel == Some("noopener noreferrer") <==> IsExternal(p.href.value))
    ensures Render(p).Anchor? ==> Render(p).download == (p.download.Some? && p.download.value)
    ensures Render(p).PlainButton? ==> Render(p).buttonType == "button" && Render(p).className == ButtonClasses(WithDefaults(p))
  {
  }

  /** The scroll link adds only `cursor-pointer` to the button's class names. */
  lemma ScrollLinkClasses(p: Props)
    requires Truthy(p.to)
    ensures Render(p).ScrollLink?
    ensures Tokens(Render(p).className) == ["cursor-pointer"] + Tokens(ButtonClasses(WithDefaults(p)))
  {
    var classes := ButtonClasses(WithDefaults(p));
    assert Render(p).className == "cursor-pointer " + classes;
    CursorPointerTokens(classes);
  }

  lemma CursorPointerTokens(classes: string)
    ensures Tokens("cursor-pointer " + classes) == ["cursor-pointer"] + Tokens(classes)
  {
    var w := "cursor-pointer";
    assert forall i :: 0 <= i < |w| ==> w[i] != ' ';
    TokensAfterWord(w, classes);
    assert w + " " + classes == "cursor-pointer " + classes;
  }

  /** Links to other sites open in a new tab, in-page and relative links do not. */
  lemma ExternalExamples(url: string, rest: string)
    requires |url| >= 4 && url[..4] == "http"
    ensures IsExternal(url)
    ensures !IsExternal("/cv.pdf" + rest) && !IsExternal("#contact" + rest)
    ensures IsExternal("https://" + rest)
  {
    assert ("/cv.pdf" + rest)[0] == '/';
    assert ("#contact" + rest)[0] == '#';
    assert ("https://" + rest)[..4] == "http";
  }
}
