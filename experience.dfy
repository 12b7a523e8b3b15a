/** The timeline of src/sections/Experience.tsx: work and education records
    merged into one shape with normalised fields, the period text used as the
    sort key, and the tab filter. The sort itself compares JavaScript dates
    parsed from French period text; its order is not modelled, so the filter
    facts below hold for every reordering of the merged list. */
module Experience {
  import opened Common
  import opened Site
  import Text

  datatype Kind = Work | Education

  /** One timeline card. `tags` is absent on education cards. */
  datatype TimelineItem = TimelineItem(
    role: string,
    company: string,
    period: string,
    description: seq<string>,
    kind: Kind,
    location: Option<string>,
    tags: Option<seq<string>>)

  /** Location shown for education records that do not give one. */
  const UnspecifiedLocation: string := "Non spécifié"

  /** A work record: description always a list, tags always present. */
  function FromWork(w: WorkConfig): TimelineItem {
    TimelineItem(
      w.role, w.company, w.period,
      match w.description
      case Bullets(lines) => lines
      case Paragraph(text) => [text],
      Work, w.location,
      Some(match w.tags case Some(t) => t case None => []))
  }

  /** An education record: degree as role, institution as company. */
  function FromEducation(e: EducationConfig): TimelineItem {
    TimelineItem(
      e.degree, e.institution, e.period, e.description, Education,
      Some(match e.location case Some(l) => l case None => UnspecifiedLocation),
      None)
  }

  /** The timeline before sorting: every work record, then every education record. */
  function Merge(work: seq<WorkConfig>, education: seq<EducationConfig>): seq<TimelineItem> {
    seq(|work|, i requires 0 <= i < |work| => FromWork(work[i]))
      + seq(|education|, i requires 0 <= i < |education| => FromEducation(education[i]))
  }

  /** One card per record; work cards keep their record's fields, wrap a
      paragraph into a one-line list and default missing tags to none;
      education cards map degree and institution and default the location. */
  lemma MergeSpec(work: seq<WorkConfig>, education: seq<EducationConfig>)
    ensures |Merge(work, education)| == |work| + |education|
    ensures forall i :: 0 <= i < |work| ==>
      var c := Merge(work, education)[i];
      && c.kind == Work && c.role == work[i].role && c.company == work[i].company
      && c.period == work[i].period && c.location == work[i].location
      && c.description == (if work[i].description.Paragraph? then [work[i].description.text]
                           else work[i].description.lines)
      && c.tags == Some(if work[i].tags.Some? then work[i].tags.value else [])
    ensures forall i :: 0 <= i < |education| ==>
      var c := Merge(work, education)[|work| + i];
      && c.kind == Education && c.role == education[i].degree
      && c.company == education[i].institution && c.period == education[i].period
      && c.description == education[i].description
      && c.location == Some(if education[i].location.Some? then education[i].location.value
                            else UnspecifiedLocation)
  {
  }

  /** The text the sort parses as a date: `period.split(' - ')[0]`. */
  function PeriodStart(period: string): string {
    Text.BeforeFirst(period, " - ")
  }

  /** A period written `start - end` with no hyphen in `start` yields `start`;
      a period without the separator yields itself. */
  lemma PeriodStartSpec(start: string, end: string, period: string)
    ensures '-' !in start ==> PeriodStart(start + " - " + end) == start
    ensures (forall j :: 0 <= j ==> !Text.OccursAt(period, " - ", j)) ==> PeriodStart(period) == period
  {
    if '-' !in start {
      var s := start + " - " + end;
      assert Text.OccursAt(s, " - ", |start|) by {
        assert s[|start|..|start| + 3] == " - ";
      }
      forall j | 0 <= j < |start| ensures !Text.OccursAt(s, " - ", j) {
        if j + 3 <= |s| { assert s[j..j + 3][1] == s[j + 1]; }
        if j + 1 < |start| {
          assert s[j + 1] == start[j + 1] && start[j + 1] in start;
        } else {
          assert s[j + 1] == ' ';
        }
      }
      var r := PeriodStart(s);
      assert r == s[..|start|] == start;
    }
  }

  /** The tabs: every card, or the cards of one kind. */
  datatype Tab = All | Only(kind: Kind)

  /** The cards of one kind, in order. */
  function OfKind(items: seq<TimelineItem>, kind: Kind): (r: seq<TimelineItem>)
    ensures forall x :: x in r <==> x in items && x.kind == kind
  {
    if items == [] then []
    else if items[0].kind == kind then [items[0]] + OfKind(items[1..], kind)
    else OfKind(items[1..], kind)
  }

  /** `filteredExperiences` for the active tab. */
  function Visible(items: seq<TimelineItem>, tab: Tab): seq<TimelineItem> {
    match tab
    case All => items
    case Only(kind) => OfKind(items, kind)
  }

  lemma {:induction false} OfKindAppend(a: seq<TimelineItem>, b: seq<TimelineItem>, kind: Kind)
    ensures OfKind(a + b, kind) == OfKind(a, kind) + OfKind(b, kind)
  {
    if a == [] {
      assert a + b == b;
    } else {
      assert (a + b)[0] == a[0];
      assert (a + b)[1..] == a[1..] + b;
      OfKindAppend(a[1..], b, kind);
    }
  }

  /** A kind filter keeps every card of that kind as often as it occurs and
      drops every other card. */
  lemma {:induction false} OfKindCount(items: seq<TimelineItem>, kind: Kind, x: TimelineItem)
    ensures multiset(OfKind(items, kind))[x] == if x.kind == kind then multiset(items)[x] else 0
  {
    if items != [] {
      OfKindCount(items[1..], kind, x);
      assert items == [items[0]] + items[1..];
      assert multiset(items) == multiset([items[0]]) + multiset(items[1..]);
    }
  }

  /** The work tab and the education tab split the full list between them. */
  lemma TabsPartition(items: seq<TimelineItem>)
    ensures Visible(items, All) == items
    ensures multiset(Visible(items, Only(Work))) + multiset(Visible(items, Only(Education))) == multiset(items)
  {
    forall x ensures (multiset(OfKind(items, Work)) + multiset(OfKind(items, Education)))[x] == multiset(items)[x] {
      OfKindCount(items, Work, x);
      OfKindCount(items, Education, x);
    }
  }

  /** A tab shows the whole list when every card is of its kind. */
  lemma {:induction false} OfKindAll(items: seq<TimelineItem>, kind: Kind)
    requires forall i :: 0 <= i < |items| ==> items[i].kind == kind
    ensures OfKind(items, kind) == items
  {
    if items != [] {
      assert items[0].kind == kind;
      assert forall i :: 0 <= i < |items[1..]| ==> items[1..][i] == items[i + 1];
      OfKindAll(items[1..], kind);
      assert items == [items[0]] + items[1..];
    }
  }

  /** A tab shows nothing when no card is of its kind. */
  lemma {:induction false} OfKindNone(items: seq<TimelineItem>, kind: Kind)
    requires forall i :: 0 <= i < |items| ==> items[i].kind != kind
    ensures OfKind(items, kind) == []
  {
    if items != [] {
      assert items[0].kind != kind;
      assert forall i :: 0 <= i < |items[1..]| ==> items[1..][i] == items[i + 1];
      OfKindNone(items[1..], kind);
    }
  }

  /** Reordering the cards does not change how many a tab shows. */
  lemma OfKindSizeUnderReorder(shown: seq<TimelineItem>, merged: seq<TimelineItem>, kind: Kind)
    requires multiset(shown) == multiset(merged)
    ensures |OfKind(shown, kind)| == |OfKind(merged, kind)|
  {
    forall x ensures multiset(OfKind(shown, kind))[x] == multiset(OfKind(merged, kind))[x] {
      OfKindCount(shown, kind, x);
      OfKindCount(merged, kind, x);
    }
    assert multiset(OfKind(shown, kind)) == multiset(OfKind(merged, kind));
    assert |OfKind(shown, kind)| == |multiset(OfKind(shown, kind))|;
    assert |OfKind(merged, kind)| == |multiset(OfKind(merged, kind))|;
  }

  /** Before sorting, the work tab shows exactly the work cards and the
      education tab exactly the education cards. */
  lemma MergeByKind(work: seq<WorkConfig>, education: seq<EducationConfig>)
    ensures |OfKind(Merge(work, education), Work)| == |work|
    ensures |OfKind(Merge(work, education), Education)| == |education|
  {
    var ws := seq(|work|, i requires 0 <= i < |work| => FromWork(work[i]));
    var es := seq(|education|, i requires 0 <= i < |education| => FromEducation(education[i]));
    assert Merge(work, education) == ws + es;
    OfKindAppend(ws, es, Work);
    OfKindAppend(ws, es, Education);
    assert forall i :: 0 <= i < |ws| ==> ws[i].kind == Work;
    assert forall i :: 0 <= i < |es| ==> es[i].kind == Education;
    OfKindAll(ws, Work);
    OfKindNone(ws, Education);
    OfKindNone(es, Work);
    OfKindAll(es, Education);
  }

  /** However the sort orders the merged cards, the work tab shows one card
      per work record and the education tab one per education record. */
  lemma TabSizesAfterAnySort(work: seq<WorkConfig>, education: seq<EducationConfig>, shown: seq<TimelineItem>)
    requires multiset(shown) == multiset(Merge(work, education))
    ensures |Visible(shown, Only(Work))| == |work|
    ensures |Visible(shown, Only(Education))| == |education|
  {
    MergeByKind(work, education);
    OfKindSizeUnderReorder(shown, Merge(work, education), Work);
    OfKindSizeUnderReorder(shown, Merge(work, education), Education);
  }

  /** The component's one piece of state: the selected tab. */
  class TimelineView {
    const items: seq<TimelineItem>
    var activeTab: Tab

    constructor (items: seq<TimelineItem>)
      ensures this.items == items && activeTab == All
    {
      this.items := items;
      activeTab := All;
    }

    method SelectTab(tab: Tab)
      modifies this`activeTab
      ensures activeTab == tab
    {
      activeTab := tab;
    }

    function Shown(): seq<TimelineItem>
      reads this
    {
      Visible(items, activeTab)
    }
  }
}
