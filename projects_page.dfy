/**
 * The public projects page: it fetches the project listing, keeps the first
 * four projects, and gives each a gradient and an icon by its position and
 * a list of technologies to show.
 */
module ProjectsPage {

  import opened Common
  import opened Records
  import opened PageLoad

  datatype Style = Style(gradient: string, icon: string)

  /** `projectStyles`, used in turn by position. */
  const Styles: seq<Style> := [
    Style("from-amber-400 to-orange-500", "☀️"),
    Style("from-emerald-400 to-teal-500", "⚗️"),
    Style("from-sky-400 to-blue-500", "🌪️"),
    Style("from-red-400 to-pink-500", "🔥")
  ]

  /** How many projects the page shows. */
  const Shown: nat := 4

  /** What a project without softwares shows as its technologies. */
  const PlaceholderTechnologies: seq<string> := ["Projet", "Technologie"]

  const NotOkMessage := "Échec de la récupération des projets"
  const FallbackMessage := "Une erreur est survenue lors du chargement des projets"

  /** A project as rendered: the listed record and what the page adds to it. */
  datatype DisplayProject = DisplayProject(project: Keyed<Project>, technologies: seq<string>, gradient: string, icon: string)

  function Technologies(softwares: seq<string>): seq<string> {
    if |softwares| > 0 then softwares else PlaceholderTechnologies
  }

  /**
   * `data.slice(0, 4).map(...)`: the first four projects in their order,
   * project `i` styled by `projectStyles[i % 4]` and showing its softwares,
   * or the placeholder pair when it has none.
   */
  function Enriched(xs: seq<Keyed<Project>>): (r: seq<DisplayProject>)
    ensures |r| == if |xs| < Shown then |xs| else Shown
    ensures forall i :: 0 <= i < |r| ==>
      && r[i].project == xs[i]
      && r[i].gradient == Styles[i % |Styles|].gradient
      && r[i].icon == Styles[i % |Styles|].icon
      && (|xs[i].item.softwares| > 0 ==> r[i].technologies == xs[i].item.softwares)
      && (|xs[i].item.softwares| == 0 ==> r[i].technologies == PlaceholderTechnologies)
  {
    var shown := Prefix(xs, Shown);
    seq(|shown|, i requires 0 <= i < |shown| =>
      DisplayProject(shown[i], Technologies(shown[i].item.softwares),
                     Styles[i % |Styles|].gradient, Styles[i % |Styles|].icon))
  }

  /** The records behind the rendered projects. */
  function Originals(ds: seq<DisplayProject>): (r: seq<Keyed<Project>>)
    ensures |r| == |ds| && forall i :: 0 <= i < |ds| ==> r[i] == ds[i].project
  {
    if ds == [] then [] else [ds[0].project] + Originals(ds[1..])
  }

  /** Stripping what the page adds gives back exactly the first four listed projects. */
  lemma EnrichedKeepsFirstFour(xs: seq<Keyed<Project>>)
    ensures Originals(Enriched(xs)) == Prefix(xs, Shown)
  {
    var r := Enriched(xs);
    assert forall i :: 0 <= i < |r| ==> Originals(r)[i] == Prefix(xs, Shown)[i];
  }

  /** Every shown project lists at least one technology, and the four shown projects have four different gradients. */
  lemma EnrichedCardsDiffer(xs: seq<Keyed<Project>>)
    ensures forall d :: d in Enriched(xs) ==> |d.technologies| > 0
    ensures forall i, j :: 0 <= i < j < |Enriched(xs)| ==> Enriched(xs)[i].gradient != Enriched(xs)[j].gradient
  {
    var r := Enriched(xs);
    forall d | d in r ensures |d.technologies| > 0 {
      var i :| 0 <= i < |r| && r[i] == d;
    }
  }

  /** The page's state: the rendered projects, the loading flag and the error shown. */
  class ProjectsView {
    var projects: seq<DisplayProject>
    var isLoading: bool
    var error: Option<string>

    constructor ()
      ensures projects == [] && isLoading && error.None?
    {
      projects, isLoading, error := [], true, None;
    }

    /**
     * The effect `fetchProjects`: a usable listing replaces the projects
     * with its enrichment; any failure keeps them and records the error;
     * loading always ends.
     */
    method FetchProjects(p: Payload<Keyed<Project>>)
      modifies this
      ensures error == LoadError(p, NotOkMessage, FallbackMessage)
      ensures Listing(p).Some? ==> projects == Enriched(Listing(p).value)
      ensures Listing(p).None? ==> projects == old(projects)
      ensures !isLoading
    {
      isLoading := true;
      error := None;
      match p {
        case NotOk =>
          error := Some(NotOkMessage);
        case Thrown(m) =>
          error := Some(OrElse(Some(m), FallbackMessage));
        case Body(success, data) =>
          if !success || data.None? {
            error := Some(InvalidDataMessage);
          } else {
            projects := Enriched(data.value);
          }
      }
      isLoading := false;
    }
  }
}
