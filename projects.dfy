/** The project catalogue of src/sections/Projects.tsx: the category buttons
    derived from the projects' tags, the tag filter, the detail modal with its
    scroll lock and Escape key, the image lookup and the tag chips on cards. */
module Projects {
  import opened Common
  import opened Dom
  import opened Site

  /** The category that shows every project. */
  const AllCategory: string := "Tous"

  /** Every tag of every project, projects in order, then tags in order
      (`projects.flatMap(p => p.tags)`). */
  function AllTags(projects: seq<Project>): seq<string> {
    if projects == [] then [] else projects[0].tags + AllTags(projects[1..])
  }

  lemma {:induction false} AllTagsMember(projects: seq<Project>, tag: string)
    ensures tag in AllTags(projects) <==> exists i :: 0 <= i < |projects| && tag in projects[i].tags
  {
    if projects != [] {
      AllTagsMember(projects[1..], tag);
      if tag in AllTags(projects[1..]) {
        var i :| 0 <= i < |projects[1..]| && tag in projects[1..][i].tags;
        assert projects[i + 1] == projects[1..][i];
      }
      if exists i :: 0 <= i < |projects| && tag in projects[i].tags {
        var i :| 0 <= i < |projects| && tag in projects[i].tags;
        if i > 0 { assert projects[1..][i - 1] == projects[i]; }
      }
    }
  }

  /** No value occurs twice. */
  predicate Distinct(s: seq<string>) {
    forall i, j :: 0 <= i < j < |s| ==> s[i] != s[j]
  }

  /** `[...new Set(s)]`: the values of `s` with repeats removed, each kept where
      it first occurs. */
  function Dedup(s: seq<string>): (r: seq<string>)
    ensures forall x :: x in r <==> x in s
    ensures Distinct(r)
    decreases |s|
  {
    if s == [] then []
    else
      var d := Dedup(s[..|s| - 1]);
      if s[|s| - 1] in d then d else d + [s[|s| - 1]]
  }

  /** Position of the first occurrence of `x` in `s`. */
  function FirstIndex(s: seq<string>, x: string): (i: nat)
    requires x in s
    ensures i < |s| && s[i] == x && forall j :: 0 <= j < i ==> s[j] != x
  {
    if s[0] == x then 0 else 1 + FirstIndex(s[1..], x)
  }

  lemma {:induction false} FirstIndexExtend(s: seq<string>, y: string, x: string)
    requires x in s
    ensures FirstIndex(s + [y], x) == FirstIndex(s, x)
  {
    if s[0] != x {
      assert (s + [y])[1..] == s[1..] + [y];
      FirstIndexExtend(s[1..], y, x);
    }
  }

  /** The deduplicated values come in the order of their first appearance. */
  lemma {:induction false} DedupOrder(s: seq<string>)
    ensures forall i, j :: 0 <= i < j < |Dedup(s)| ==>
      FirstIndex(s, Dedup(s)[i]) < FirstIndex(s, Dedup(s)[j])
    decreases |s|
  {
    if s != [] {
      var init, last := s[..|s| - 1], s[|s| - 1];
      assert s == init + [last];
      DedupOrder(init);
      var d := Dedup(init);
      forall x | x in d ensures FirstIndex(s, x) == FirstIndex(init, x) && FirstIndex(s, x) < |init| {
        FirstIndexExtend(init, last, x);
      }
      if last !in d {
        assert last !in init;
        assert FirstIndex(s, last) == |init|;
      }
    }
  }

  /** The filter buttons: the "all" category, then each tag once. */
  function Categories(projects: seq<Project>): seq<string> {
    [AllCategory] + Dedup(AllTags(projects))
  }

  /** The categories start with the "all" category, and after it hold each tag
      of each project exactly once, in order of first appearance. */
  lemma CategoriesSpec(projects: seq<Project>)
    ensures Categories(projects)[0] == AllCategory
    ensures var tags := Categories(projects)[1..];
      && Distinct(tags)
      && (forall t :: t in tags <==> exists i :: 0 <= i < |projects| && t in projects[i].tags)
      && (forall i, j :: 0 <= i < j < |tags| ==> FirstIndex(AllTags(projects), tags[i]) < FirstIndex(AllTags(projects), tags[j]))
  {
    assert Categories(projects)[1..] == Dedup(AllTags(projects));
    DedupOrder(AllTags(projects));
    forall t ensures t in Dedup(AllTags(projects)) <==> exists i :: 0 <= i < |projects| && t in projects[i].tags {
      AllTagsMember(projects, t);
    }
  }

  /** The projects carrying `tag`, in their original order. */
  function WithTag(projects: seq<Project>, tag: string): (r: seq<Project>)
    ensures |r| <= |projects|
    ensures forall p :: p in r <==> p in projects && tag in p.tags
  {
    if projects == [] then []
    else if tag in projects[0].tags then [projects[0]] + WithTag(projects[1..], tag)
    else WithTag(projects[1..], tag)
  }

  /** The tag filter keeps the relative order of the projects. */
  lemma {:induction false} WithTagAppend(a: seq<Project>, b: seq<Project>, tag: string)
    ensures WithTag(a + b, tag) == WithTag(a, tag) + WithTag(b, tag)
  {
    if a == [] {
      assert a + b == b;
    } else {
      assert (a + b)[0] == a[0];
      assert (a + b)[1..] == a[1..] + b;
      WithTagAppend(a[1..], b, tag);
    }
  }

  /** The projects shown for the active filter. */
  function FilteredProjects(projects: seq<Project>, activeFilter: string): seq<Project> {
    if activeFilter == AllCategory then projects else WithTag(projects, activeFilter)
  }

  /** The "all" category shows every project in order; any other category
      shows exactly the projects tagged with it, and a category that came from a
      tag never shows an empty list. */
  lemma FilteredSpec(projects: seq<Project>, activeFilter: string)
    ensures activeFilter == AllCategory ==> FilteredProjects(projects, activeFilter) == projects
    ensures activeFilter != AllCategory ==>
      forall p :: p in FilteredProjects(projects, activeFilter) <==> p in projects && activeFilter in p.tags
    ensures activeFilter in Categories(projects)[1..] ==> |FilteredProjects(projects, activeFilter)| > 0
  {
    if activeFilter in Categories(projects)[1..] {
      CategoriesSpec(projects);
      var i :| 0 <= i < |projects| && activeFilter in projects[i].tags;
      assert projects[i] in projects;
      if activeFilter != AllCategory {
        assert projects[i] in WithTag(projects, activeFilter);
      }
    }
  }

  /** The tags of the configured projects, in scan order; "React.js" occurs
      twice (first and third project). */
  lemma SiteTags()
    ensures AllTags(SiteProjects) == [
      "React.js", "Spring Boot", "Rasa NLP", "JWT", "Docker", "Proxmox",
      "Python", "Tkinter", "SQLite", "UI/UX Design",
      "React.js", "Node.js", "MongoDB", "Tailwind CSS",
      "HTML", "CSS", "JavaScript", "Bootstrap", "Responsive Design"]
  {
  }

  /** Adding a value at the end adds it to the deduplicated values unless it
      was already there. */
  lemma DedupSnoc(s: seq<string>, x: string)
    ensures Dedup(s + [x]) == if x in s then Dedup(s) else Dedup(s) + [x]
  {
    assert (s + [x])[..|s|] == s;
  }

  /** The bundled image per project id (named by its asset file). */
  const ProjectImages: map<string, string> := map[
    "chatbot-ai" := "chatbot-ai.png",
    "gestion-emploi" := "gestion-emploi.png",
    "e-learning" := "e-learning.png",
    "e-commerce" := "e-com-interface.png"
  ]

  const PlaceholderImage: string := "project-placeholder.svg"

  /** `projectImages[id] || projectPlaceholderImage`. */
  function ImageSrc(id: string): (src: string)
    ensures src != ""
    ensures id in ProjectImages ==> src == ProjectImages[id]
    ensures id !in ProjectImages ==> src == PlaceholderImage
  {
    if id in ProjectImages && ProjectImages[id] != "" then ProjectImages[id] else PlaceholderImage
  }

  /** Every configured project has its own image. */
  lemma SiteImages()
    ensures forall p :: p in SiteProjects ==> ImageSrc(p.id) != PlaceholderImage
  {
  }

  /** Tag chips: three on the mobile grid, four on the desktop carousel. */
  const MobileTagLimit: nat := 3
  const DesktopTagLimit: nat := 4

  /** `tags.slice(0, limit)`. */
  function CardTags(tags: seq<string>, limit: nat): (shown: seq<string>)
    ensures shown <= tags
    ensures |shown| == if |tags| < limit then |tags| else limit
  {
    if |tags| <= limit then tags else tags[..limit]
  }

  /** The catalogue component's state, over the shared document body. */
  class ProjectsView {
    const projects: seq<Project>
    var activeFilter: string
    var selectedProject: Option<Project>
    var isModalOpen: bool
    const body: Body

    /** The active filter is always one of the buttons. */
    ghost predicate Valid()
      reads this
    {
      activeFilter in Categories(projects)
    }

    /** The cards shown: while there are projects at all, the grid is never
        empty, whichever button is active. */
    function Visible(): (r: seq<Project>)
      reads this
      requires Valid()
      ensures |projects| > 0 ==> |r| > 0
      ensures activeFilter == AllCategory ==> r == projects
    {
      assert activeFilter == AllCategory || activeFilter in Categories(projects)[1..];
      FilteredSpec(projects, activeFilter);
      FilteredProjects(projects, activeFilter)
    }

    /** The modal renders only while open and with a project selected. */
    function ModalShown(): bool
      reads this
    {
      isModalOpen && selectedProject.Some?
    }

    constructor (projects: seq<Project>, body: Body)
      ensures Valid() && this.projects == projects && this.body == body
      ensures activeFilter == AllCategory && selectedProject == None && !isModalOpen
    {
      this.projects := projects;
      this.body := body;
      activeFilter := AllCategory;
      selectedProject := None;
      isModalOpen := false;
    }

    /** A category button; the buttons are exactly `Categories(projects)`. */
    method SelectCategory(category: string)
      requires category in Categories(projects)
      modifies this`activeFilter
      ensures Valid() && activeFilter == category
    {
      activeFilter := category;
    }

    method OpenModal(p: Project)
      modifies this`selectedProject, this`isModalOpen, body`overflow
      ensures selectedProject == Some(p) && isModalOpen && body.overflow == Hidden
    {
      selectedProject := Some(p);
      isModalOpen := true;
      body.overflow := Hidden;
    }

    /** Closing keeps the selected project (the modal is hidden by the flag). */
    method CloseModal()
      modifies this`isModalOpen, body`overflow
      ensures !isModalOpen && body.overflow == Auto && !ModalShown()
    {
      isModalOpen := false;
      body.overflow := Auto;
    }

    /** The window `keydown` listener: only Escape closes the modal. */
    method HandleKeyDown(key: string)
      modifies this`isModalOpen, body`overflow
      ensures key == "Escape" ==> !isModalOpen && body.overflow == Auto
      ensures key != "Escape" ==> isModalOpen == old(isModalOpen) && body.overflow == old(body.overflow)
    {
      if key == "Escape" {
        CloseModal();
      }
    }
  }
}
