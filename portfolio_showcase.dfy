/**
 * The home page's portfolio showcase: it fetches the project listing, keeps
 * the first four projects, and gives each a colour, a background gradient
 * and a set of mock-up images by its position, and tags to show.
 */
module PortfolioShowcase {

  import opened Common
  import opened Records
  import opened PageLoad

  datatype Style = Style(color: string, bgGradient: string, mockups: seq<string>)

  /** `projectStyles`, used in turn by position. */
  const Styles: seq<Style> := [
    Style("#2563eb", "from-blue-50 to-indigo-50", ["/c5.jpg", "/i1.png", "/q3.jpg", "/s1.jpg"]),
    Style("#4f46e5", "from-blue-50 to-cyan-50", ["/i1.png", "/q3.jpg", "/s1.jpg"]),
    Style("#0891b2", "from-blue-50 to-teal-50", ["/q3.jpg", "/s1.jpg", "/c5.jpg", "/i1.png"]),
    Style("#0e7490", "from-blue-50 to-sky-50", ["/s1.jpg", "/c5.jpg", "/i1.png"])
  ]

  /** How many projects the showcase shows. */
  const Shown: nat := 4

  /** What a project without softwares shows as its tags. */
  const PlaceholderTags: seq<string> := ["Projet", "Technologie"]

  const NotOkMessage := "Échec de la récupération des projets"
  const FallbackMessage := "Une erreur est survenue lors du chargement des projets"

  /** A project as rendered: the listed record and what the showcase adds to it. */
  datatype ShowcaseProject = ShowcaseProject(project: Keyed<Project>, tags: seq<string>, mockups: seq<string>, color: string, bgGradient: string)

  function Tags(softwares: seq<string>): seq<string> {
    if |softwares| > 0 then softwares else PlaceholderTags
  }

  /**
   * `data.slice(0, 4).map(...)`: the first four projects in their order,
   * project `i` styled by `projectStyles[i % 4]` and tagged with its
   * softwares, or the placeholder pair when it has none.
   */
  function Enriched(xs: seq<Keyed<Project>>): (r: seq<ShowcaseProject>)
    ensures |r| == if |xs| < Shown then |xs| else Shown
    ensures forall i :: 0 <= i < |r| ==>
      && r[i].project == xs[i]
      && r[i].color == Styles[i % |Styles|].color
      && r[i].bgGradient == Styles[i % |Styles|].bgGradient
      && r[i].mockups == Styles[i % |Styles|].mockups
      && (|xs[i].item.softwares| > 0 ==> r[i].tags == xs[i].item.softwares)
      && (|xs[i].item.softwares| == 0 ==> r[i].tags == PlaceholderTags)
  {
    var shown := Prefix(xs, Shown);
    seq(|shown|, i requires 0 <= i < |shown| =>
      var s := Styles[i % |Styles|];
      ShowcaseProject(shown[i], Tags(shown[i].item.softwares), s.mockups, s.color, s.bgGradient))
  }

  /** The records behind the rendered projects. */
  function Originals(ds: seq<ShowcaseProject>): (r: seq<Keyed<Project>>)
    ensures |r| == |ds| && forall i :: 0 <= i < |ds| ==> r[i] == ds[i].project
  {
    if ds == [] then [] else [ds[0].project] + Originals(ds[1..])
  }

  /** Stripping what the showcase adds gives back exactly the first four listed projects. */
  lemma EnrichedKeepsFirstFour(xs: seq<Keyed<Project>>)
    ensures Originals(Enriched(xs)) == Prefix(xs, Shown)
  {
    var r := Enriched(xs);
    assert forall i :: 0 <= i < |r| ==> Originals(r)[i] == Prefix(xs, Shown)[i];
  }

  /** Every shown card has at least one tag and at least three mock-ups, and no two cards share a colour. */
  lemma ShowcaseCardsDiffer(xs: seq<Keyed<Project>>)
    ensures forall i :: 0 <= i < |Enriched(xs)| ==> |Enriched(xs)[i].tags| > 0 && |Enriched(xs)[i].mockups| >= 3
    ensures forall i, j :: 0 <= i < j < |Enriched(xs)| ==> Enriched(xs)[i].color != Enriched(xs)[j].color
  {
    var r := Enriched(xs);
    forall i | 0 <= i < |r| ensures |r[i].tags| > 0 && |r[i].mockups| >= 3 {
      assert i % |Styles| == i;
      ShownStyleHasMockups(i);
    }
    forall i, j | 0 <= i < j < |r| ensures r[i].color != r[j].color {
      assert i % |Styles| == i && j % |Styles| == j;
      ShownColoursDiffer(i, j);
    }
  }

  lemma ShownStyleHasMockups(i: nat)
    requires i < Shown
    ensures |Styles[i].mockups| >= 3
  {
    if i == 0 {
      assert |Styles[0].mockups| == 4;
    } else if i == 1 {
      assert |Styles[1].mockups| == 3;
    } else if i == 2 {
      assert |Styles[2].mockups| == 4;
    } else {
      assert |Styles[3].mockups| == 3;
    }
  }

  lemma ShownColoursDiffer(i: nat, j: nat)
    requires i < j < Shown
    ensures Styles[i].color != Styles[j].color
  {
    var c0, c1, c2, c3 := Styles[0].color, Styles[1].color, Styles[2].color, Styles[3].color;
    assert c0[1] == '2' && c1[1] == '4' && c2[1] == '0' && c3[1] == '0';
    assert c2[2] == '8' && c3[2] == 'e';
  }

  /** The showcase's state: the rendered projects, the loading flag and the error shown. */
  class ShowcaseView {
    var projects: seq<ShowcaseProject>
    var isLoading: bool
    var error: Option<string>

    constructor ()
      ensures projects == [] && isLoading && error.None?
    {
      projects, isLoading, error := [], true, None;
    }

    /**
     * The effect `fetchProjects`: a usable listing replaces the projects
     * with its enrichment; any failure keeps them and records the error;
     * loading always ends.
     */
    method FetchProjects(p: Payload<Keyed<Project>>)
      modifies this
      ensures error == LoadError(p, NotOkMessage, FallbackMessage)
      ensures Listing(p).Some? ==> projects == Enriched(Listing(p).value)
      ensures Listing(p).None? ==> projects == old(projects)
      ensures !isLoading
    {
      isLoading := true;
      error := None;
      match p {
        case NotOk =>
          error := Some(NotOkMessage);
        case Thrown(m) =>
          error := Some(OrElse(Some(m), FallbackMessage));
        case Body(success, data) =>
          if !success || data.None? {
            error := Some(InvalidDataMessage);
          } else {
            projects := Enriched(data.value);
          }
      }
      isLoading := false;
    }
  }
}
