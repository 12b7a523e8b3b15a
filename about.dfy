/** The skills panel of src/sections/About.tsx: four categories built from the
    configured skills, the tab that selects one, the position of the
    indicator under the tabs, and each skill card's icon, name and sub-label. */
module About {
  import opened Common
  import opened Site
  import Text

  /** `${name} (${level})`, the card text of a spoken language. */
  function LanguageLabel(l: Language): string {
    l.name + " (" + l.level + ")"
  }

  /** One card per language, in order; each card reads back as its
      language: the name shown, the level on the line under it (for a name
      without `(` and a non-empty level without `)`). */
  function Labels(languages: seq<Language>): (r: seq<string>)
    ensures |r| == |languages|
    ensures forall i :: 0 <= i < |languages| && ReadsBack(languages[i]) ==>
      DisplayName(r[i]) == languages[i].name && SubLabel(r[i]) == Some(languages[i].level)
  {
    LabelsRoundTrip(languages);
    seq(|languages|, i requires 0 <= i < |languages| => LanguageLabel(languages[i]))
  }

  /** The conditions under which a card shows its language's name and level. */
  predicate ReadsBack(l: Language) {
    '(' !in l.name && ')' !in l.level && l.level != ""
  }

  lemma LabelsRoundTrip(languages: seq<Language>)
    ensures forall i :: 0 <= i < |languages| && ReadsBack(languages[i]) ==>
      DisplayName(LanguageLabel(languages[i])) == languages[i].name
      && SubLabel(LanguageLabel(languages[i])) == Some(languages[i].level)
  {
    forall i | 0 <= i < |languages| && ReadsBack(languages[i])
      ensures DisplayName(LanguageLabel(languages[i])) == languages[i].name
      ensures SubLabel(LanguageLabel(languages[i])) == Some(languages[i].level)
    {
      LabelRoundTrip(languages[i]);
    }
  }

  /** A tab of the panel and the skills its slide lists. */
  datatype SkillCategory = SkillCategory(id: string, name: string, items: seq<string>)

  function SkillCategories(skills: Skills): seq<SkillCategory> {
    [
      SkillCategory("frontend", "Frontend", skills.frontend),
      SkillCategory("backend", "Backend", skills.backend),
      SkillCategory("tools", "Outils & Infra", skills.tools + skills.infrastructure),
      SkillCategory("languages", "Langues", Labels(skills.languages))
    ]
  }

  /** The ids of the four tabs. */
  const TabIds: seq<string> := ["frontend", "backend", "tools", "languages"]

  /** The panel lists every configured skill exactly where its category puts
      it: tools before infrastructure on the third slide, one label per
      language on the last. The tab ids are the four distinct `TabIds`. */
  lemma SkillCategoriesSpec(skills: Skills)
    ensures |SkillCategories(skills)| == |TabIds| == 4
    ensures forall i :: 0 <= i < 4 ==> SkillCategories(skills)[i].id == TabIds[i]
    ensures forall i, j :: 0 <= i < j < 4 ==> TabIds[i] != TabIds[j]
    ensures SkillCategories(skills)[0].items == skills.frontend
    ensures SkillCategories(skills)[1].items == skills.backend
    ensures var tools := SkillCategories(skills)[2].items;
      && |tools| == |skills.tools| + |skills.infrastructure|
      && tools[..|skills.tools|] == skills.tools && tools[|skills.tools|..] == skills.infrastructure
    ensures |SkillCategories(skills)[3].items| == |skills.languages|
  {
    var tools := skills.tools + skills.infrastructure;
    assert tools[..|skills.tools|] == skills.tools;
    assert tools[|skills.tools|..] == skills.infrastructure;
  }

  /** `skill.split(' (')[0]`: the name shown in large type. */
  function DisplayName(skill: string): string {
    Text.BeforeFirst(skill, " (")
  }

  /** The first `)` at or after `i`. */
  function CloseFrom(s: string, i: nat): (r: Option<nat>)
    requires i <= |s|
    ensures r.Some? ==> i <= r.value < |s| && s[r.value] == ')'
    ensures r.Some? ==> forall j :: i <= j < r.value ==> s[j] != ')'
    ensures r.None? ==> forall j :: i <= j < |s| ==> s[j] != ')'
    decreases |s| - i
  {
    if i == |s| then None
    else if s[i] == ')' then Some(i)
    else CloseFrom(s, i + 1)
  }

  /** The pattern `\(([^)]+)\)` matches at `i`: an opening parenthesis, at
      least one character other than `)`, then `)`. The greedy group runs up
      to the first `)` after `i`. */
  predicate MatchesAt(s: string, i: nat) {
    i < |s| && s[i] == '(' && var k := CloseFrom(s, i + 1); k.Some? && k.value > i + 1
  }

  /** The group of the leftmost match starting at or after `i`. */
  function GroupFrom(s: string, i: nat): (r: Option<string>)
    requires i <= |s|
    ensures r.Some? <==> exists j :: i <= j < |s| && MatchesAt(s, j)
    decreases |s| - i
  {
    if i == |s| then None
    else if MatchesAt(s, i) then Some(s[i + 1..CloseFrom(s, i + 1).value])
    else GroupFrom(s, i + 1)
  }

  /** The small line under the name: absent when the skill has no `(`;
      otherwise the regular expression's group, or empty when it does not match. */
  function SubLabel(skill: string): (r: Option<string>)
    ensures r.None? <==> '(' !in skill
  {
    if '(' !in skill then None
    else match GroupFrom(skill, 0)
      case Some(g) => Some(g)
      case None => Some("")
  }

  /** A skill without parentheses is shown as it is, with no sub-label. */
  lemma PlainSkill(skill: string)
    requires '(' !in skill
    ensures DisplayName(skill) == skill && SubLabel(skill) == None
  {
    forall j | 0 <= j && j + 2 <= |skill| ensures !Text.OccursAt(skill, " (", j) {
      assert skill[j..j + 2][1] == skill[j + 1];
    }
  }

  /** The name shown on a language card is the language's name, as long as
      the name has no `(`. */
  lemma LabelDisplayName(l: Language)
    requires '(' !in l.name
    ensures DisplayName(LanguageLabel(l)) == l.name
  {
    var s, n := LanguageLabel(l), |l.name|;
    assert s[n] == ' ' && s[n + 1] == '(';
    assert Text.OccursAt(s, " (", n) by { assert s[n..n + 2] == " ("; }
    forall j | 0 <= j < n ensures !Text.OccursAt(s, " (", j) {
      if j + 1 < n {
        assert s[j + 1] == l.name[j + 1];
      } else {
        assert s[j + 1] == ' ';
      }
      assert s[j..j + 2][1] == s[j + 1];
    }
    assert DisplayName(s) == s[..n] == l.name;
  }

  /** The sub-label of a language card is the level, as long as the name has
      no `(` and the level is non-empty and has no `)`. */
  lemma LabelSubLabel(l: Language)
    requires '(' !in l.name && ')' !in l.level && l.level != ""
    ensures SubLabel(LanguageLabel(l)) == Some(l.level)
  {
    var s, n := LanguageLabel(l), |l.name|;
    assert s[n + 1] == '(';
    var close := n + 2 + |l.level|;
    assert s[close] == ')' && close == |s| - 1;
    forall j | n + 2 <= j < close ensures s[j] != ')' {
      assert s[j] == l.level[j - n - 2];
    }
    CloseFromAt(s, n + 2, close);
    assert MatchesAt(s, n + 1);
    assert s[n + 2..close] == l.level;
    forall j | 0 <= j <= n ensures !MatchesAt(s, j) {
      if j < n { assert s[j] == l.name[j]; }
    }
    GroupFromSkips(s, 0, n + 1);
  }

  /** Formatting a language and reading the card back give the name and the
      level again, as long as the name has no `(`, and the level is non-empty
      and has no `)`. */
  lemma LabelRoundTrip(l: Language)
    requires '(' !in l.name && ')' !in l.level && l.level != ""
    ensures DisplayName(LanguageLabel(l)) == l.name
    ensures SubLabel(LanguageLabel(l)) == Some(l.level)
  {
    LabelDisplayName(l);
    LabelSubLabel(l);
  }

  /** `CloseFrom` finds a `)` preceded by none from `i` on. */
  lemma {:induction false} CloseFromAt(s: string, i: nat, k: nat)
    requires i <= k < |s| && s[k] == ')'
    requires forall j :: i <= j < k ==> s[j] != ')'
    ensures CloseFrom(s, i) == Some(k)
    decreases k - i
  {
    if i < k {
      CloseFromAt(s, i + 1, k);
    }
  }

  /** The search skips positions where the pattern does not match. */
  lemma {:induction false} GroupFromSkips(s: string, i: nat, k: nat)
    requires i <= k < |s| && MatchesAt(s, k)
    requires forall j :: i <= j < k ==> !MatchesAt(s, j)
    ensures GroupFrom(s, i) == Some(s[k + 1..CloseFrom(s, k + 1).value])
    decreases k - i
  {
    if i < k {
      GroupFromSkips(s, i + 1, k);
    }
  }

  /** A label with empty parentheses still gets a sub-label line, an empty one. */
  lemma EmptyLevel(l: Language)
    requires '(' !in l.name
    ensures DisplayName(LanguageLabel(l.(level := ""))) == l.name
    ensures SubLabel(LanguageLabel(l.(level := ""))) == Some("")
  {
    var e := l.(level := "");
    LabelDisplayName(e);
    var s, n := LanguageLabel(e), |l.name|;
    assert s == l.name + " ()";
    assert s[n + 1] == '(' && s[n + 2] == ')' && |s| == n + 3;
    assert CloseFrom(s, n + 2) == Some(n + 2);
    forall j | 0 <= j < |s| ensures !MatchesAt(s, j) {
      if j < n { assert s[j] == l.name[j]; }
    }
    assert GroupFrom(s, 0) == None;
    assert '(' in s;
  }

  /** `findIndex` of the active tab, `-1` when no tab has that id. */
  function IndicatorIndex(categories: seq<SkillCategory>, activeTab: string): (r: int)
    ensures -1 <= r < |categories|
    ensures r == -1 <==> forall i :: 0 <= i < |categories| ==> categories[i].id != activeTab
    ensures r >= 0 ==> categories[r].id == activeTab && forall i :: 0 <= i < r ==> categories[i].id != activeTab
  {
    if categories == [] then -1
    else if categories[0].id == activeTab then 0
    else
      var k := IndicatorIndex(categories[1..], activeTab);
      if k == -1 then -1 else k + 1
  }

  /** The indicator's offset, in percent of its own width. */
  function IndicatorOffset(categories: seq<SkillCategory>, activeTab: string): int {
    IndicatorIndex(categories, activeTab) * 100
  }

  /** For every tab, the indicator sits under that tab: the i-th tab puts it
      at i times its width, within the track. */
  lemma IndicatorUnderTab(skills: Skills, i: nat)
    requires i < 4
    ensures IndicatorIndex(SkillCategories(skills), TabIds[i]) == i
    ensures 0 <= IndicatorOffset(SkillCategories(skills), TabIds[i]) == 100 * i <= 300
  {
    SkillCategoriesSpec(skills);
  }

  /** The tab state. */
  class AboutTabs {
    var activeTab: string

    /** The active tab is one of the four. */
    ghost predicate Valid()
      reads this
    {
      activeTab in TabIds
    }

    constructor ()
      ensures activeTab == "frontend" && Valid()
    {
      activeTab := "frontend";
    }

    /** The indicator's offset for the active tab: always under one of the
        four tabs, never the `-100` that `findIndex` gives for an unknown id. */
    function Indicator(skills: Skills): (r: int)
      reads this
      requires Valid()
      ensures 0 <= r <= 300 && r % 100 == 0
    {
      SkillCategoriesSpec(skills);
      var categories := SkillCategories(skills);
      assert exists i :: 0 <= i < |categories| && categories[i].id == activeTab;
      IndicatorOffset(categories, activeTab)
    }

    /** A tab button; scrolling its slide into view is left to the browser. */
    method HandleTabChange(tabId: string)
      requires tabId in TabIds
      modifies this`activeTab
      ensures activeTab == tabId && Valid()
    {
      activeTab := tabId;
    }
  }

  /** `toUpperCase` of one character, for ASCII and Latin-1. */
  function UpperChar(c: char): (r: string)
    ensures |r| == 1 || (c == 'ß' && r == "SS")
    ensures c == 'ß' ==> r == "SS"
  {
    if 'a' <= c <= 'z' then [(c as int - 32) as char]
    else if ('à' <= c <= 'þ') && c != '÷' then [(c as int - 32) as char]
    else if c == 'ß' then "SS"
    else if c == 'ÿ' then ['\U{178}']
    else if c == 'µ' then ['\U{39C}']
    else [c]
  }

  /** `name.charAt(0).toUpperCase()`: empty for an empty name. */
  function FallbackInitial(name: string): string {
    if name == "" then "" else UpperChar(name[0])
  }

  /** Lower-case letters become their capitals, and capitals, digits and
      punctuation stay; upper-casing the result again changes nothing. */
  lemma UpperCharSpec(c: char)
    ensures 'a' <= c <= 'z' ==> UpperChar(c) == [(c as int - 32) as char] && 'A' <= UpperChar(c)[0] <= 'Z'
    ensures ('A' <= c <= 'Z') || ('0' <= c <= '9') ==> UpperChar(c) == [c]
    ensures forall k :: 0 <= k < |UpperChar(c)| ==> UpperChar(UpperChar(c)[k]) == [UpperChar(c)[k]]
  {
  }

  /** The icon on a skill card. */
  datatype Icon = TechIcon(component: string) | Fallback(initial: string)

  /** The skills with a dedicated icon, by the icon component drawn. */
  const TechIcons: map<string, string> := map[
    "HTML" := "SiHtml5", "CSS" := "SiCss3", "JavaScript" := "SiJavascript",
    "Bootstrap" := "SiBootstrap", "Tailwind CSS" := "SiTailwindcss", "jQuery" := "SiJquery",
    "React.js" := "SiReact",
    "MySQL" := "SiMysql", "PHP" := "SiPhp", "Laravel" := "SiLaravel", "Python" := "SiPython",
    "PL/SQL" := "FaDatabase", "MongoDB" := "SiMongodb", "SQLite" := "FaDatabase",
    "Node.js" := "SiNodedotjs",
    "Proxmox" := "SiProxmox", "VMware" := "SiVmware",
    "Linux (administration système)" := "SiLinux",
    "Git" := "SiGit", "GitLab" := "SiGitlab", "GitHub" := "SiGithub", "Jira" := "SiJirasoftware",
    "SonarQube" := "FaCode", "UML" := "FaCode", "PERT" := "FaProjectDiagram",
    "GanttProject" := "FaProjectDiagram", "Postman" := "SiPostman"
  ]

  /** `techIcons[skill] || <FallbackIcon name={skill} />`. */
  function IconFor(skill: string): Icon {
    if skill in TechIcons then TechIcon(TechIcons[skill]) else Fallback(FallbackInitial(skill))
  }

  /** Every skill of the list has a dedicated icon. */
  predicate HasIcons(items: seq<string>) {
    forall t :: t in items ==> t in TechIcons
  }

  lemma SiteTechIcons(skills: Skills)
    requires skills == SiteSkills
    ensures HasIcons(skills.frontend) && HasIcons(skills.backend)
    ensures HasIcons(skills.tools) && HasIcons(skills.infrastructure)
  {
  }

  /** No language label has a dedicated icon. */
  lemma SiteLanguageIcons(skills: Skills)
    requires skills == SiteSkills
    ensures forall l :: l in skills.languages ==> LanguageLabel(l) !in TechIcons
  {
  }

  /** Every configured technology has its own icon; a language card shows
      the capitalised initial of its label. */
  lemma SiteIcons(skills: Skills)
    requires skills == SiteSkills
    ensures forall c :: c in SkillCategories(skills)[..3] ==> forall t :: t in c.items ==> IconFor(t).TechIcon?
    ensures forall l :: l in skills.languages ==> IconFor(LanguageLabel(l)) == Fallback(FallbackInitial(l.name))
  {
    SiteTechIcons(skills);
    SiteLanguageIcons(skills);
    var tools := skills.tools + skills.infrastructure;
    assert forall t :: t in tools ==> t in skills.tools || t in skills.infrastructure;
    forall l | l in skills.languages
      ensures IconFor(LanguageLabel(l)) == Fallback(FallbackInitial(l.name))
    {
      assert LanguageLabel(l)[0] == l.name[0];
    }
  }
}
