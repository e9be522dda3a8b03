/**
 * The public experiences page: it fetches every experience and shows each
 * under its name and subject, with an icon, a category and colours taken
 * in turn from seven styles.
 */
module ExperiencesPage {

  import opened Common
  import opened Records
  import opened PageLoad

  /** One entry of `experienceStyles`; the icon is named by its component. */
  datatype Style = Style(icon: string, category: string, color: string, bgColor: string, textColor: string, glowColor: string)

  const Styles: seq<Style> := [
    Style("Thermometer", "Thermodynamique", "from-red-500 to-orange-500", "bg-red-50", "text-red-600", "shadow-red-500/25"),
    Style("Monitor", "Développement", "from-blue-500 to-cyan-500", "bg-blue-50", "text-blue-600", "shadow-blue-500/25"),
    Style("Settings", "Automatisation", "from-green-500 to-emerald-500", "bg-green-50", "text-green-600", "shadow-green-500/25"),
    Style("Smartphone", "Télécommunications", "from-purple-500 to-violet-500", "bg-purple-50", "text-purple-600", "shadow-purple-500/25"),
    Style("Home", "IoT & Domotique", "from-indigo-500 to-blue-500", "bg-indigo-50", "text-indigo-600", "shadow-indigo-500/25"),
    Style("Lightbulb", "Innovation", "from-yellow-500 to-amber-500", "bg-yellow-50", "text-yellow-600", "shadow-yellow-500/25"),
    Style("Users", "Management", "from-teal-500 to-cyan-500", "bg-teal-50", "text-teal-600", "shadow-teal-500/25")
  ]

  const NotOkMessage := "Échec de la récupération des expériences"
  const FallbackMessage := "Une erreur est survenue lors du chargement des expériences"

  /** An experience as rendered: the listed record, its heading and text, and its style. */
  datatype DisplayExperience = DisplayExperience(experience: Keyed<Experience>, title: string, description: string, style: Style)

  /**
   * `data.map(...)`: every experience in its order, shown under its name
   * and subject, experience `i` styled by `experienceStyles[i % 7]`.
   */
  function Enriched(xs: seq<Keyed<Experience>>): (r: seq<DisplayExperience>)
    ensures |r| == |xs|
    ensures forall i :: 0 <= i < |r| ==>
      && r[i].experience == xs[i]
      && r[i].title == xs[i].item.name
      && r[i].description == xs[i].item.subject
      && r[i].style == Styles[i % |Styles|]
  {
    seq(|xs|, i requires 0 <= i < |xs| =>
      DisplayExperience(xs[i], xs[i].item.name, xs[i].item.subject, Styles[i % |Styles|]))
  }

  /** The records behind the rendered experiences. */
  function Originals(ds: seq<DisplayExperience>): (r: seq<Keyed<Experience>>)
    ensures |r| == |ds| && forall i :: 0 <= i < |ds| ==> r[i] == ds[i].experience
  {
    if ds == [] then [] else [ds[0].experience] + Originals(ds[1..])
  }

  /** Nothing is dropped or reordered: stripping what the page adds gives back the listing. */
  lemma EnrichedKeepsAll(xs: seq<Keyed<Experience>>)
    ensures Originals(Enriched(xs)) == xs
  {
    var r := Enriched(xs);
    assert forall i :: 0 <= i < |r| ==> Originals(r)[i] == xs[i];
  }

  /**
   * The styles repeat every seven experiences, and within any seven
   * consecutive experiences no category repeats.
   */
  lemma StylesCycle(xs: seq<Keyed<Experience>>)
    ensures forall i :: 0 <= i && i + |Styles| < |xs| ==> Enriched(xs)[i + |Styles|].style == Enriched(xs)[i].style
    ensures forall i, j :: 0 <= i < j < |xs| && j < i + |Styles| ==>
      Enriched(xs)[i].style.category != Enriched(xs)[j].style.category
  {
    var r := Enriched(xs);
    var n := |Styles|;
    forall i | 0 <= i && i + n < |xs| ensures r[i + n].style == r[i].style {
      assert (i + n) % n == i % n;
    }
    forall i, j | 0 <= i < j < |xs| && j < i + n ensures r[i].style.category != r[j].style.category {
      assert i % n != j % n;
    }
  }

  /** The page's state: the rendered experiences, the loading flag and the error shown. */
  class ExperiencesView {
    var experiences: seq<DisplayExperience>
    var isLoading: bool
    var error: Option<string>

    constructor ()
      ensures experiences == [] && isLoading && error.None?
    {
      experiences, isLoading, error := [], true, None;
    }

    /**
     * The effect `fetchExperiences`: a usable listing replaces the
     * experiences with its enrichment; any failure keeps them and records
     * the error; loading always ends.
     */
    method FetchExperiences(p: Payload<Keyed<Experience>>)
      modifies this
      ensures error == LoadError(p, NotOkMessage, FallbackMessage)
      ensures Listing(p).Some? ==> experiences == Enriched(Listing(p).value)
      ensures Listing(p).None? ==> experiences == old(experiences)
      ensures !isLoading
    {
      isLoading := true;
      error := None;
      match p {
        case NotOk =>
          error := Some(NotOkMessage);
        case Thrown(m) =>
          error := Some(OrElse(Some(m), FallbackMessage));
        case Body(success, data) =>
          if !success || data.None? {
            error := Some(InvalidDataMessage);
          } else {
            experiences := Enriched(data.value);
          }
      }
      isLoading := false;
    }
  }
}
