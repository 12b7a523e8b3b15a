/** The static skills list of src/sections/About.new.tsx: four titled groups
    built from the configured skills, without tabs. */
module AboutNew {
  import opened Site
  import About

  /** A titled group and the skills it lists. */
  datatype SkillGroup = SkillGroup(name: string, items: seq<string>)

  function SkillGroups(skills: Skills): seq<SkillGroup> {
    [
      SkillGroup("Développement Frontend", skills.frontend),
      SkillGroup("Développement Backend", skills.backend),
      SkillGroup("Outils & Infrastructure", skills.tools + skills.infrastructure),
      SkillGroup("Langues", About.Labels(skills.languages))
    ]
  }

  /** The list shows the same skills, in the same order and the same four
      groups, as the tabbed panel; only the titles differ. */
  lemma SameItemsAsTabs(skills: Skills)
    ensures |SkillGroups(skills)| == |About.SkillCategories(skills)| == 4
    ensures forall i :: 0 <= i < 4 ==> SkillGroups(skills)[i].items == About.SkillCategories(skills)[i].items
    ensures forall i, j :: 0 <= i < j < 4 ==> SkillGroups(skills)[i].name != SkillGroups(skills)[j].name
  {
  }

  /** Every configured skill appears in some group; every language appears
      as its label. */
  lemma EverySkillListed(skills: Skills, s: string)
    ensures s in skills.frontend + skills.backend + skills.tools + skills.infrastructure
      ==> exists i :: 0 <= i < 4 && s in SkillGroups(skills)[i].items
    ensures forall l :: l in skills.languages ==> About.LanguageLabel(l) in SkillGroups(skills)[3].items
  {
    var g := SkillGroups(skills);
    if s in skills.frontend + skills.backend + skills.tools + skills.infrastructure {
      if s in skills.frontend { assert s in g[0].items; }
      else if s in skills.backend { assert s in g[1].items; }
      else { assert s in g[2].items; }
    }
    forall l | l in skills.languages ensures About.LanguageLabel(l) in g[3].items {
      var i :| 0 <= i < |skills.languages| && skills.languages[i] == l;
      assert g[3].items[i] == About.LanguageLabel(l);
    }
  }
}
