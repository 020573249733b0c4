/** The public portfolio page of src/pages/references.tsx: a fixed project list, one
    filter button per category plus "all", and an empty-state message. The page uses
    its own list, not the one the admin editor stores. */
module ReferencesPage {
  import opened Seqs
  import opened ReferenceManagement

  /** The selection that shows every project, and the page's initial selection. */
  const AllCategory: string := "all"

  /** The page's projects. */
  const Project1: Reference :=
    Reference(
      1,
      "Rodinný dům Praha 6",
      "newConstruction",
      "Praha 6, Dejvice",
      "2023",
      "Kompletní výstavba moderního rodinného domu s energeticky úsporným řešením.",
      "https://images.unsplash.com/photo-1564013799919-ab600027ffc6?w=600&h=400&fit=crop",
      [ "https://images.unsplash.com/photo-1564013799919-ab600027ffc6?w=800&h=600&fit=crop",
        "https://images.unsplash.com/photo-1493809842364-78817add7ffb?w=800&h=600&fit=crop",
        "https://images.unsplash.com/photo-1554995207-c18c203602cb?w=800&h=600&fit=crop" ])

  const Project2: Reference :=
    Reference(
      2,
      "Rekonstrukce bytu Vinohrady",
      "reconstruction",
      "Praha 2, Vinohrady",
      "2023",
      "Celková rekonstrukce bytu 3+1 včetně nového půdorysu a moderního designu.",
      "https://images.unsplash.com/photo-1581858726788-75bc0f6a952d?w=600&h=400&fit=crop",
      [ "https://images.unsplash.com/photo-1581858726788-75bc0f6a952d?w=800&h=600&fit=crop",
        "https://images.unsplash.com/photo-1586023492125-27b2c045efd7?w=800&h=600&fit=crop",
        "https://images.unsplash.com/photo-1586105251261-72a756497a11?w=800&h=600&fit=crop" ])

  const Project3: Reference :=
    Reference(
      3,
      "Půdní vestavba Karlín",
      "atticConversion",
      "Praha 8, Karlín",
      "2022",
      "Přeměna nevyužitého podkroví na krásný byt 2+kk s terasou.",
      "https://images.unsplash.com/photo-1586023492125-27b2c045efd7?w=600&h=400&fit=crop",
      [ "https://images.unsplash.com/photo-1586023492125-27b2c045efd7?w=800&h=600&fit=crop",
        "https://images.unsplash.com/photo-1560448204-e02f11c3d0e2?w=800&h=600&fit=crop",
        "https://images.unsplash.com/photo-1502005229762-cf1b2da7c5d6?w=800&h=600&fit=crop" ])

  const Project4: Reference :=
    Reference(
      4,
      "Vila Břevnov",
      "newConstruction",
      "Praha 6, Břevnov",
      "2022",
      "Luxusní rodinná vila s bazénem a zahradou na klíč.",
      "https://images.unsplash.com/photo-1493809842364-78817add7ffb?w=600&h=400&fit=crop",
      [ "https://images.unsplash.com/photo-1493809842364-78817add7ffb?w=800&h=600&fit=crop",
        "https://images.unsplash.com/photo-1554995207-c18c203602cb?w=800&h=600&fit=crop",
        "https://images.unsplash.com/photo-1505142468610-359e7d316be0?w=800&h=600&fit=crop" ])

  const Project5: Reference :=
    Reference(
      5,
      "Střešní rekonstrukce Smíchov",
      "roofWork",
      "Praha 5, Smíchov",
      "2023",
      "Kompletní výměna střešní krytiny a zateplení střechy.",
      "https://images.unsplash.com/photo-1503387762-592deb58ef4e?w=600&h=400&fit=crop",
      [ "https://images.unsplash.com/photo-1503387762-592deb58ef4e?w=800&h=600&fit=crop",
        "https://images.unsplash.com/photo-1558618666-fcd25c85cd64?w=800&h=600&fit=crop",
        "https://images.unsplash.com/photo-1504307651254-35680f356dfd?w=800&h=600&fit=crop" ])

  const Project6: Reference :=
    Reference(
      6,
      "Zateplení fasády Holešovice",
      "insulation",
      "Praha 7, Holešovice",
      "2022",
      "Komplexní zateplení panelového domu včetně nové fasády.",
      "https://images.unsplash.com/photo-1558618666-fcd25c85cd64?w=600&h=400&fit=crop",
      [ "https://images.unsplash.com/photo-1558618666-fcd25c85cd64?w=800&h=600&fit=crop",
        "https://images.unsplash.com/photo-1504307651254-35680f356dfd?w=800&h=600&fit=crop",
        "https://images.unsplash.com/photo-1560448204-e02f11c3d0e2?w=800&h=600&fit=crop" ])

  /** The page's projects, in display order. */
  const Projects: seq<Reference> := [Project1, Project2, Project3, Project4, Project5, Project6]

  /** The ids of the filter buttons, in display order. */
  const CategoryButtons: seq<string> :=
    [AllCategory, "newConstruction", "reconstruction", "atticConversion", "roofWork", "insulation"]

  function InCategory(c: string): Reference -> bool
  {
    (p: Reference) => p.category == c
  }

  /** `filteredProjects`: everything for "all", otherwise the projects of the selected
      category. */
  function FilteredProjects(projects: seq<Reference>, selected: string): seq<Reference>
  {
    if selected == AllCategory then projects else Filter(projects, InCategory(selected))
  }

  /** The empty-state message's condition. */
  predicate ShowsEmptyState(projects: seq<Reference>, selected: string)
  {
    |FilteredProjects(projects, selected)| == 0
  }

  /** "all" shows the whole list in its own order. */
  lemma AllShowsEverything(projects: seq<Reference>)
    ensures FilteredProjects(projects, AllCategory) == projects
  {
  }

  /** Any other selection shows exactly the projects of that category, in their
      original relative order, and the list splits over concatenation. */
  lemma CategoryShowsExactlyItsProjects(projects: seq<Reference>, selected: string)
    requires selected != AllCategory
    ensures forall p :: p in FilteredProjects(projects, selected) <==> p in projects && p.category == selected
    ensures forall p :: p in FilteredProjects(projects, selected) ==> p.category == selected
    ensures IsSubsequence(FilteredProjects(projects, selected), projects)
  {
    FilterIsSubsequence(projects, InCategory(selected));
  }

  /** Filtering a list made of two parts filters each part in place, so relative
      order is kept. */
  lemma CategoryFilterKeepsOrder(a: seq<Reference>, b: seq<Reference>, selected: string)
    ensures FilteredProjects(a + b, selected) == FilteredProjects(a, selected) + FilteredProjects(b, selected)
  {
    if selected != AllCategory {
      FilterConcat(a, b, InCategory(selected));
    }
  }

  /** Whatever the selection, the shown list is a subsequence of the project list and
      no longer than it. */
  lemma FilteredIsSubsequence(projects: seq<Reference>, selected: string)
    ensures IsSubsequence(FilteredProjects(projects, selected), projects)
    ensures |FilteredProjects(projects, selected)| <= |projects|
  {
    if selected == AllCategory {
      SubsequenceReflexive(projects);
    } else {
      FilterIsSubsequence(projects, InCategory(selected));
    }
    SubsequenceLength(FilteredProjects(projects, selected), projects);
  }

  /** The empty state shows exactly when no project is left: for "all" when the list
      is empty, otherwise when no project has the selected category. */
  lemma EmptyStateExactly(projects: seq<Reference>, selected: string)
    ensures ShowsEmptyState(projects, selected) <==>
            if selected == AllCategory then projects == []
            else forall p :: p in projects ==> p.category != selected
  {
    if selected != AllCategory {
      FilterEmpty(projects, InCategory(selected));
    }
  }

  /** A category some project has never shows the empty state. */
  lemma UsedCategoryShowsProjects(projects: seq<Reference>, k: nat)
    requires k < |projects|
    ensures !ShowsEmptyState(projects, projects[k].category)
  {
    EmptyStateExactly(projects, projects[k].category);
  }

  /** For each button, the position of a project it shows: the first project for
      "all", and otherwise a project of the button's category. */
  const ButtonWitness: seq<nat> := [0, 0, 1, 2, 4, 5]

  /** On the page's list every button shows at least one project. */
  lemma EveryButtonShowsProjects()
    ensures forall i :: 1 <= i < |CategoryButtons| ==> Projects[ButtonWitness[i]].category == CategoryButtons[i]
    ensures forall i :: 0 <= i < |CategoryButtons| ==> !ShowsEmptyState(Projects, CategoryButtons[i])
  {
    forall i | 0 <= i < |CategoryButtons|
      ensures !ShowsEmptyState(Projects, CategoryButtons[i])
    {
      if i == 0 {
        assert Projects[0] in FilteredProjects(Projects, AllCategory);
      } else {
        UsedCategoryShowsProjects(Projects, ButtonWitness[i]);
      }
    }
  }

  /** A category no project has, such as the editor's "stoneWork", shows the empty
      state. */
  lemma UnusedCategoryShowsEmptyState()
    ensures ShowsEmptyState(Projects, "stoneWork")
  {
    forall p | p in Projects
      ensures p.category != "stoneWork"
    {
      var i :| 0 <= i < |Projects| && Projects[i] == p;
    }
    EmptyStateExactly(Projects, "stoneWork");
  }

  /** The new-construction button shows the first and the fourth project, in that
      order. */
  lemma NewConstructionProjects()
    ensures FilteredProjects(Projects, "newConstruction") == [Projects[0], Projects[3]]
  {
    var p := InCategory("newConstruction");
    assert Projects[5..] == [Project6] && Filter(Projects[6..], p) == [];
    assert Filter(Projects[5..], p) == [];
    assert Projects[4..] == [Project5] + Projects[5..];
    assert Filter(Projects[4..], p) == [];
    assert Projects[3..] == [Project4] + Projects[4..];
    assert Filter(Projects[3..], p) == [Project4];
    assert Projects[2..] == [Project3] + Projects[3..];
    assert Filter(Projects[2..], p) == [Project4];
    assert Projects[1..] == [Project2] + Projects[2..];
    assert Filter(Projects[1..], p) == [Project4];
  }
}
