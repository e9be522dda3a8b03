/**
 * The home page's experience cards: they fetch the project listing, keep
 * the first four projects, and give each an icon and colours by position
 * and a category, which is the project's first software when it has one.
 */
module ExperiencePage {

  import opened Common
  import opened Records
  import opened PageLoad

  /** One entry of `projectStyles`; the icon is named by its component. */
  datatype Style = Style(icon: string, category: string, color: string, bgColor: string, textColor: string)

  const Styles: seq<Style> := [
    Style("Thermometer", "Thermodynamique", "from-red-500 to-orange-500", "bg-red-50", "text-red-600"),
    Style("Monitor", "Développement", "from-blue-500 to-cyan-500", "bg-blue-50", "text-blue-600"),
    Style("Settings", "Automatisation", "from-green-500 to-emerald-500", "bg-green-50", "text-green-600"),
    Style("Smartphone", "Télécommunications", "from-purple-500 to-violet-500", "bg-purple-50", "text-purple-600"),
    Style("Home", "IoT & Domotique", "from-indigo-500 to-blue-500", "bg-indigo-50", "text-indigo-600"),
    Style("Lightbulb", "Innovation", "from-yellow-500 to-amber-500", "bg-yellow-50", "text-yellow-600"),
    Style("Users", "Management", "from-teal-500 to-cyan-500", "bg-teal-50", "text-teal-600")
  ]

  /** How many projects the cards show. */
  const Shown: nat := 4

  const NotOkMessage := "Échec de la récupération des projets"
  const FallbackMessage := "Une erreur est survenue lors du chargement des projets"

  /** A project as rendered: the listed record, its category and its style. */
  datatype ProjectCard = ProjectCard(project: Keyed<Project>, category: string, style: Style)

  /** `project.softwares?.[0] || style.category`: an empty first software falls back too. */
  function Category(softwares: seq<string>, style: Style): string {
    if |softwares| > 0 && softwares[0] != "" then softwares[0] else style.category
  }

  /**
   * `data.slice(0, 4).map(...)`: the first four projects in their order,
   * project `i` styled by `projectStyles[i % 7]`, with its first software
   * as the category when that is non-empty and the style's category
   * otherwise.
   */
  function Enriched(xs: seq<Keyed<Project>>): (r: seq<ProjectCard>)
    ensures |r| == if |xs| < Shown then |xs| else Shown
    ensures forall i :: 0 <= i < |r| ==>
      && r[i].project == xs[i]
      && r[i].style == Styles[i % |Styles|]
      && (|xs[i].item.softwares| > 0 && xs[i].item.softwares[0] != "" ==> r[i].category == xs[i].item.softwares[0])
      && (|xs[i].item.softwares| == 0 || xs[i].item.softwares[0] == "" ==> r[i].category == Styles[i % |Styles|].category)
  {
    var shown := Prefix(xs, Shown);
    seq(|shown|, i requires 0 <= i < |shown| =>
      ProjectCard(shown[i], Category(shown[i].item.softwares, Styles[i % |Styles|]), Styles[i % |Styles|]))
  }

  /** The records behind the rendered cards. */
  function Originals(ds: seq<ProjectCard>): (r: seq<Keyed<Project>>)
    ensures |r| == |ds| && forall i :: 0 <= i < |ds| ==> r[i] == ds[i].project
  {
    if ds == [] then [] else [ds[0].project] + Originals(ds[1..])
  }

  /** Stripping what the cards add gives back exactly the first four listed projects. */
  lemma EnrichedKeepsFirstFour(xs: seq<Keyed<Project>>)
    ensures Originals(Enriched(xs)) == Prefix(xs, Shown)
  {
    var r := Enriched(xs);
    assert forall i :: 0 <= i < |r| ==> Originals(r)[i] == Prefix(xs, Shown)[i];
  }

  /**
   * Only four cards are shown, so only the first four of the seven styles
   * are ever used, each once, and no card's category is empty.
   */
  lemma CardsUseFirstStyles(xs: seq<Keyed<Project>>)
    ensures forall i :: 0 <= i < |Enriched(xs)| ==> Enriched(xs)[i].style == Styles[i]
    ensures forall i :: 0 <= i < |Enriched(xs)| ==> Enriched(xs)[i].category != ""
  {
    var r := Enriched(xs);
    forall i | 0 <= i < |r| ensures r[i].style == Styles[i] && r[i].category != "" {
      assert i % |Styles| == i;
      ShownStyleHasCategory(i);
    }
  }

  lemma ShownStyleHasCategory(i: nat)
    requires i < Shown
    ensures Styles[i].category != ""
  {
    if i == 0 {
      assert Styles[0].category == "Thermodynamique";
    } else if i == 1 {
      assert Styles[1].category == "Développement";
    } else if i == 2 {
      assert Styles[2].category == "Automatisation";
    } else {
      assert Styles[3].category == "Télécommunications";
    }
  }

  /** The cards' state: the rendered projects, the loading flag and the error shown. */
  class ExperienceView {
    var projects: seq<ProjectCard>
    var isLoading: bool
    var error: Option<string>

    constructor ()
      ensures projects == [] && isLoading && error.None?
    {
      projects, isLoading, error := [], true, None;
    }

    /**
     * The effect `fetchProjects`: a usable listing replaces the cards with
     * its enrichment; any failure keeps them and records the error;
     * loading always ends.
     */
    method FetchProjects(p: Payload<Keyed<Project>>)
      modifies this
      ensures error == LoadError(p, NotOkMessage, FallbackMessage)
      ensures Listing(p).Some? ==> projects == Enriched(Listing(p).value)
      ensures Listing(p).None? ==> projects == old(projects)
      ensures !isLoading
    {
      isLoading := true;
      error := None;
      match p {
        case NotOk =>
          error := Some(NotOkMessage);
        case Thrown(m) =>
          error := Some(OrElse(Some(m), FallbackMessage));
        case Body(success, data) =>
          if !success || data.None? {
            error := Some(InvalidDataMessage);
          } else {
            projects := Enriched(data.value);
          }
      }
      isLoading := false;
    }
  }
}
