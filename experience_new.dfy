/** The simpler timeline of src/sections/Experience.new.tsx: work records are
    kept whole and tagged as work; education records are reshaped, their
    description lines joined into one paragraph. The date sort is not
    modelled (see the Experience module). */
module ExperienceNew {
  import opened Site
  import Text
  import Experience

  /** A card: a work record as configured, or a reshaped education record. */
  datatype Entry =
    | WorkEntry(config: WorkConfig)
    | EducationEntry(role: string, company: string, period: string, description: string)
  {
    /** The `type` field. */
    function Kind(): Experience.Kind {
      if WorkEntry? then Experience.Work else Experience.Education
    }

    function Period(): string {
      if WorkEntry? then config.period else period
    }
  }

  /** Education lines are joined with one space. */
  function EducationDescription(lines: seq<string>): string {
    Text.Join(lines, " ")
  }

  function FromEducation(e: EducationConfig): Entry {
    EducationEntry(e.degree, e.institution, e.period, EducationDescription(e.description))
  }

  /** The timeline before sorting: every work record, then every education record. */
  function Merge(work: seq<WorkConfig>, education: seq<EducationConfig>): seq<Entry> {
    seq(|work|, i requires 0 <= i < |work| => WorkEntry(work[i]))
      + seq(|education|, i requires 0 <= i < |education| => FromEducation(education[i]))
  }

  /** One card per record; a work card carries its record unchanged; an
      education card takes degree, institution and period and one paragraph. */
  lemma MergeSpec(work: seq<WorkConfig>, education: seq<EducationConfig>)
    ensures |Merge(work, education)| == |work| + |education|
    ensures forall i :: 0 <= i < |work| ==>
      Merge(work, education)[i] == WorkEntry(work[i]) && Merge(work, education)[i].Kind() == Experience.Work
    ensures forall i :: 0 <= i < |education| ==>
      var c := Merge(work, education)[|work| + i];
      && c.Kind() == Experience.Education && c.role == education[i].degree
      && c.company == education[i].institution && c.period == education[i].period
      && c.description == Text.Join(education[i].description, " ")
  {
  }

  /** The joined paragraph holds every line and exactly one space between each
      two; joining two groups of lines puts one space between the groups. */
  lemma EducationDescriptionSpec(lines: seq<string>, more: seq<string>)
    ensures lines == [] ==> EducationDescription(lines) == ""
    ensures |lines| == 1 ==> EducationDescription(lines) == lines[0]
    ensures |lines| > 0 ==> |EducationDescription(lines)| == Text.TotalLength(lines) + |lines| - 1
    ensures |lines| > 0 && |more| > 0 ==>
      EducationDescription(lines + more) == EducationDescription(lines) + " " + EducationDescription(more)
  {
    if |lines| > 0 {
      Text.JoinLength(lines, " ");
      if |more| > 0 {
        Text.JoinAppend(lines, more, " ");
      }
    }
  }

  /** The sort key text of a card is the start of its period. */
  function SortKey(e: Entry): string {
    Experience.PeriodStart(e.Period())
  }

  /** A card whose period reads `start - end` (no hyphen in `start`) sorts by
      `start`, whether it is a work card or an education card. */
  lemma SortKeySpec(e: Entry, start: string, end: string)
    requires e.Period() == start + " - " + end && '-' !in start
    ensures SortKey(e) == start
  {
    Experience.PeriodStartSpec(start, end, e.Period());
  }
}
