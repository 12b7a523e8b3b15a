/** The handful of JavaScript string operations the site's logic relies on:
    `indexOf` of a separator, `split(sep)[0]`, `replace(/class/g, '')` with a
    character class, and `join(sep)`. Strings are sequences of characters. */
module Text {
  import opened Common

  /** `sep` occurs in `s` starting at position `i`. */
  predicate OccursAt(s: string, sep: string, i: int) {
    0 <= i && i + |sep| <= |s| && s[i..i + |sep|] == sep
  }

  /** Position of the first occurrence of `sep` in `s` at or after `i`. */
  function FindFrom(s: string, sep: string, i: nat): (r: Option<nat>)
    requires i <= |s|
    ensures r.Some? ==> i <= r.value && OccursAt(s, sep, r.value)
    ensures r.Some? ==> forall j :: i <= j < r.value ==> !OccursAt(s, sep, j)
    ensures r.None? ==> forall j :: i <= j ==> !OccursAt(s, sep, j)
    decreases |s| - i
  {
    if i + |sep| > |s| then None
    else if s[i..i + |sep|] == sep then Some(i)
    else FindFrom(s, sep, i + 1)
  }

  /** `s.indexOf(sep)`, with `None` for -1. */
  function IndexOf(s: string, sep: string): Option<nat> {
    FindFrom(s, sep, 0)
  }

  /** `s.split(sep)[0]` for a non-empty separator: the text before the first
      occurrence of `sep`, or all of `s` when `sep` does not occur. */
  function BeforeFirst(s: string, sep: string): (r: string)
    requires |sep| > 0
    ensures r <= s
    ensures |r| == |s| || OccursAt(s, sep, |r|)
    ensures forall j :: 0 <= j < |r| ==> !OccursAt(s, sep, j)
    ensures (forall j :: 0 <= j ==> !OccursAt(s, sep, j)) ==> r == s
  {
    match IndexOf(s, sep)
    case Some(k) => s[..k]
    case None => s
  }

  /** The characters of `s` that satisfy `p`, in order: `s.replace(/[^p]/g, '')`. */
  function Keep(s: string, p: char -> bool): (r: string)
    ensures |r| <= |s|
    ensures forall c :: c in r <==> c in s && p(c)
  {
    if s == [] then []
    else if p(s[0]) then [s[0]] + Keep(s[1..], p)
    else Keep(s[1..], p)
  }

  /** Filtering distributes over concatenation, so `Keep` keeps the original order. */
  lemma {:induction false} KeepAppend(a: string, b: string, p: char -> bool)
    ensures Keep(a + b, p) == Keep(a, p) + Keep(b, p)
  {
    if a == [] {
      assert a + b == b;
    } else {
      assert (a + b)[0] == a[0];
      assert (a + b)[1..] == a[1..] + b;
      KeepAppend(a[1..], b, p);
    }
  }

  /** A string whose every character satisfies `p` is left as it is. */
  lemma {:induction false} KeepFixed(s: string, p: char -> bool)
    requires forall c :: c in s ==> p(c)
    ensures Keep(s, p) == s
  {
    if s != [] {
      assert s[0] in s;
      assert forall c :: c in s[1..] ==> c in s;
      KeepFixed(s[1..], p);
    }
  }

  /** Filtering twice is filtering once. */
  lemma KeepIdempotent(s: string, p: char -> bool)
    ensures Keep(Keep(s, p), p) == Keep(s, p)
  {
    KeepFixed(Keep(s, p), p);
  }

  /** Every kept character occurs as often as in the input; every dropped
      character not at all. */
  lemma {:induction false} KeepCount(s: string, p: char -> bool, c: char)
    ensures multiset(Keep(s, p))[c] == if p(c) then multiset(s)[c] else 0
  {
    if s != [] {
      KeepCount(s[1..], p, c);
      assert s == [s[0]] + s[1..];
      assert multiset(s) == multiset([s[0]]) + multiset(s[1..]);
    }
  }

  /** `lines.join(sep)`. */
  function Join(lines: seq<string>, sep: string): string {
    if |lines| == 0 then ""
    else if |lines| == 1 then lines[0]
    else lines[0] + sep + Join(lines[1..], sep)
  }

  /** The total number of characters in `lines`. */
  function TotalLength(lines: seq<string>): nat {
    if lines == [] then 0 else |lines[0]| + TotalLength(lines[1..])
  }

  /** Joining two non-empty groups of lines puts one separator between them. */
  lemma {:induction false} JoinAppend(a: seq<string>, b: seq<string>, sep: string)
    requires |a| > 0 && |b| > 0
    ensures Join(a + b, sep) == Join(a, sep) + sep + Join(b, sep)
  {
    if |a| == 1 {
      assert (a + b)[1..] == b;
    } else {
      assert (a + b)[1..] == a[1..] + b;
      JoinAppend(a[1..], b, sep);
    }
  }

  /** The joined string holds every line and one separator between each two. */
  lemma {:induction false} JoinLength(lines: seq<string>, sep: string)
    requires |lines| > 0
    ensures |Join(lines, sep)| == TotalLength(lines) + (|lines| - 1) * |sep|
  {
    if |lines| > 1 {
      JoinLength(lines[1..], sep);
      assert (|lines| - 1) * |sep| == (|lines| - 2) * |sep| + |sep|;
    }
  }
}
