/** The footer of src/components/Footer.tsx: the social links, one quick
    link per configured navigation link, and the contact links, whose
    `tel:` target keeps only the digits of the configured number. */
module Footer {
  import opened Site
  import Text
  import Contact

  /** The characters `\d` matches in JavaScript: ASCII digits only. */
  predicate IsAsciiDigit(c: char) {
    '0' <= c <= '9'
  }

  /** `s.replace(/\D/g, '')`. */
  function Digits(s: string): string {
    Text.Keep(s, IsAsciiDigit)
  }

  /** The phone link as written: every non-digit is dropped, a leading `+`
      included. */
  function TelHref(phone: string): string {
    "tel:" + Digits(phone)
  }

  /** The phone link keeps every digit of the number, in order (the link of a
      concatenation is the concatenation of the digits of its parts) and as
      often as it occurs, and nothing else; a number of digits only is dialled as it is,
      and stripping twice is stripping once. */
  lemma TelHrefSpec(phone: string, c: char, a: string, b: string)
    ensures TelHref(phone)[..4] == "tel:"
    ensures phone == a + b ==> TelHref(phone)[4..] == Digits(a) + Digits(b)
    ensures forall d :: d in TelHref(phone)[4..] ==> IsAsciiDigit(d)
    ensures multiset(TelHref(phone)[4..])[c] == if IsAsciiDigit(c) then multiset(phone)[c] else 0
    ensures Digits(Digits(phone)) == Digits(phone)
    ensures (forall d :: d in phone ==> IsAsciiDigit(d)) ==> TelHref(phone) == "tel:" + phone
  {
    assert TelHref(phone)[4..] == Digits(phone);
    Text.KeepCount(phone, IsAsciiDigit, c);
    Text.KeepIdempotent(phone, IsAsciiDigit);
    DigitsAppend(a, b);
    if forall d :: d in phone ==> IsAsciiDigit(d) {
      Text.KeepFixed(phone, IsAsciiDigit);
    }
  }

  /** One character is kept exactly when it is a digit. */
  lemma DigitsOne(c: char)
    ensures Digits([c]) == if IsAsciiDigit(c) then [c] else []
  {
    assert [c][1..] == [];
  }

  /** A number written `+code rest`, with digits only in `code` and `rest`
      apart from a separator, is dialled as the digits run together: the
      international `+` is dropped with the space. */
  lemma InternationalTelHref(code: string, sep: char, rest: string)
    requires forall d :: d in code ==> IsAsciiDigit(d)
    requires forall d :: d in rest ==> IsAsciiDigit(d)
    requires !IsAsciiDigit(sep)
    ensures TelHref("+" + code + [sep] + rest) == "tel:" + code + rest
  {
    var head := ['+'] + code + [sep];
    assert "+" + code + [sep] + rest == head + rest;
    DigitsBetween('+', code, sep);
    DigitsAppend(head, rest);
    DigitsFixed(rest);
  }

  lemma DigitsAppend(a: string, b: string)
    ensures Digits(a + b) == Digits(a) + Digits(b)
  {
    Text.KeepAppend(a, b, IsAsciiDigit);
  }

  lemma DigitsFixed(s: string)
    requires forall d :: d in s ==> IsAsciiDigit(d)
    ensures Digits(s) == s
  {
    Text.KeepFixed(s, IsAsciiDigit);
  }

  /** A digit group between two separators keeps only its digits. */
  lemma DigitsBetween(x: char, group: string, y: char)
    requires forall d :: d in group ==> IsAsciiDigit(d)
    requires !IsAsciiDigit(x) && !IsAsciiDigit(y)
    ensures Digits([x] + group + [y]) == group
  {
    DigitsAppend([x] + group, [y]);
    DigitsAppend([x], group);
    DigitsOne(x);
    DigitsOne(y);
    DigitsFixed(group);
  }

  /** A number written like the configured one, `+code local-line` with
      digits only in each group, is dialled as the three groups run
      together, without the `+`. */
  lemma GroupedTelHref(code: string, local: string, line: string)
    requires forall d :: d in code ==> IsAsciiDigit(d)
    requires forall d :: d in local ==> IsAsciiDigit(d)
    requires forall d :: d in line ==> IsAsciiDigit(d)
    ensures TelHref("+" + code + " " + local + "-" + line) == "tel:" + code + local + line
  {
    var head := ['+'] + code + [' '];
    var mid := local + ['-'];
    assert "+" + code + " " + local + "-" + line == head + mid + line;
    DigitsBetween('+', code, ' ');
    DigitsAppend(local, ['-']);
    DigitsFixed(local);
    DigitsOne('-');
    DigitsFixed(line);
    DigitsAppend(head + mid, line);
    DigitsAppend(head, mid);
  }

  /** The configured footer number has that shape: `+212`, `648`, `307515`. */
  lemma SitePhoneShape()
    ensures SiteContact.phone == "+" + "212" + " " + "648" + "-" + "307515"
    ensures forall d :: d in "212" + "648" + "307515" ==> IsAsciiDigit(d)
  {
  }

  /** A phone link that keeps a leading `+`, as a global number must be written
      in a `tel:` link: after `tel:` comes a `+` exactly when the number starts
      with one, and then exactly the number's digits. */
  function GlobalTelHref(phone: string): (r: string)
    ensures |r| >= 4 && r[..4] == "tel:"
    ensures (|phone| > 0 && phone[0] == '+') <==> (|r| > 4 && r[4] == '+')
    ensures |phone| > 0 && phone[0] == '+' ==> r[5..] == Digits(phone)
    ensures !(|phone| > 0 && phone[0] == '+') ==> r[4..] == Digits(phone)
  {
    var d := Digits(phone);
    assert |d| > 0 ==> d[0] in d && d[0] != '+';
    if |phone| > 0 && phone[0] == '+' then "tel:+" + d else "tel:" + d
  }

  /** For a number of that shape, the global link keeps the country code's
      `+`, where the link as written loses it. */
  lemma GroupedGlobalTelHref(code: string, local: string, line: string)
    requires forall d :: d in code ==> IsAsciiDigit(d)
    requires forall d :: d in local ==> IsAsciiDigit(d)
    requires forall d :: d in line ==> IsAsciiDigit(d)
    ensures GlobalTelHref("+" + code + " " + local + "-" + line) == "tel:+" + code + local + line
    ensures TelHref("+" + code + " " + local + "-" + line) != GlobalTelHref("+" + code + " " + local + "-" + line)
  {
    var phone := "+" + code + " " + local + "-" + line;
    GroupedTelHref(code, local, line);
    assert phone[0] == '+';
    assert TelHref(phone)[4..] == Digits(phone);
    assert ("tel:" + code + local + line)[4..] == code + local + line;
    var asWritten, global := TelHref(phone), GlobalTelHref(phone);
    assert |asWritten| + 1 == |global|;
  }

  /** An icon link of the footer. */
  datatype SocialLink = SocialLink(name: string, url: string)

  function SocialLinks(social: Social, contact: ContactDetails): seq<SocialLink> {
    [
      SocialLink("GitHub", social.github),
      SocialLink("LinkedIn", social.linkedin),
      SocialLink("Twitter", social.twitter),
      SocialLink("Email", Contact.MailLink(contact.email))
    ]
  }

  /** Four icons, in order GitHub, LinkedIn, Twitter, Email: each profile icon
      links to its own setting, and the mail icon to the contact address;
      there is no Instagram icon. */
  lemma SocialLinksSpec(social: Social, contact: ContactDetails)
    ensures var links := SocialLinks(social, contact);
      && |links| == 4
      && [links[0].name, links[1].name, links[2].name, links[3].name] == ["GitHub", "LinkedIn", "Twitter", "Email"]
      && links[0].url == social.github && links[1].url == social.linkedin && links[2].url == social.twitter
      && links[3].url == "mailto:" + contact.email
      && links[3].url[7..] == contact.email
    ensures forall i, j :: 0 <= i < j < 4 ==> SocialLinks(social, contact)[i].name != SocialLinks(social, contact)[j].name
    ensures forall i :: 0 <= i < 4 ==> SocialLinks(social, contact)[i].name != "Instagram"
  {
    Contact.MailLinkSpec(contact.email);
  }

  /** A quick link: the text shown and the section it scrolls to. */
  datatype QuickLink = QuickLink(text: string, target: string)

  /** One quick link per configured navigation link, in order. */
  function QuickLinks(navLinks: seq<NavLink>): seq<QuickLink> {
    seq(|navLinks|, i requires 0 <= i < |navLinks| => QuickLink(navLinks[i].name, navLinks[i].href))
  }

  /** The quick links of two lists of navigation links are those of the
      first, then those of the second: the footer keeps the navigation order. */
  lemma QuickLinksAppend(a: seq<NavLink>, b: seq<NavLink>)
    ensures QuickLinks(a + b) == QuickLinks(a) + QuickLinks(b)
  {
    var l, r := QuickLinks(a + b), QuickLinks(a) + QuickLinks(b);
    assert |l| == |r|;
    forall i | 0 <= i < |l| ensures l[i] == r[i] {
      if i < |a| {
        assert (a + b)[i] == a[i];
      } else {
        assert (a + b)[i] == b[i - |a|];
      }
    }
  }

  /** The footer offers exactly the configured sections: every nav link's
      target is a quick link's target, and no other. */
  lemma QuickLinkTargets(navLinks: seq<NavLink>, text: string, target: string)
    ensures |QuickLinks(navLinks)| == |navLinks|
    ensures QuickLink(text, target) in QuickLinks(navLinks) <==> NavLink(text, target) in navLinks
    ensures (exists q :: q in QuickLinks(navLinks) && q.target == target)
      <==> (exists l :: l in navLinks && l.href == target)
  {
    var r := QuickLinks(navLinks);
    if QuickLink(text, target) in r {
      var i :| 0 <= i < |r| && r[i] == QuickLink(text, target);
      assert navLinks[i] == NavLink(text, target);
    }
    if NavLink(text, target) in navLinks {
      var i :| 0 <= i < |navLinks| && navLinks[i] == NavLink(text, target);
      assert r[i] == QuickLink(text, target);
    }
    if exists q :: q in r && q.target == target {
      var q :| q in r && q.target == target;
      var i :| 0 <= i < |r| && r[i] == q;
      assert navLinks[i] in navLinks;
    }
    if exists l :: l in navLinks && l.href == target {
      var l :| l in navLinks && l.href == target;
      var i :| 0 <= i < |navLinks| && navLinks[i] == l;
      assert r[i] in r;
    }
  }
}
