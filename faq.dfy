/**
 * The questions-and-answers section of the home page: which answers are
 * unfolded, and the download of the most recent curriculum vitae, which
 * sorts the loaded list in place, rewrites hosted URLs so that the browser
 * saves the file, and derives a safe file name from the CV's name.
 */
module Faq {

  import opened Common
  import opened Text

  /** A CV as the page receives it from the vitae route. */
  datatype CvEntry = CvEntry(id: Id, name: string, file: string, createdAt: Option<Timestamp>, updatedAt: Option<Timestamp>)

  // ---------------------------------------------------------------- unfolded answers

  /** The answer a visitor sees unfolded first: the one about the CV. */
  const InitiallyOpen: set<int> := {1}

  /** `toggleItem`: an unfolded answer folds, a folded one unfolds. */
  function Toggled(open: set<int>, id: int): (r: set<int>)
    ensures id in open ==> id !in r
    ensures id !in open ==> id in r
    ensures forall k :: k != id ==> (k in r <==> k in open)
  {
    if id in open then open - {id} else open + {id}
  }

  /** Toggling the same answer twice restores the set. */
  lemma ToggleTwice(open: set<int>, id: int)
    ensures Toggled(Toggled(open, id), id) == open
  {
  }

  // ---------------------------------------------------------------- the latest CV

  /** `new Date(v.updatedAt || v.createdAt || 0).getTime()`. */
  function Recency(v: CvEntry): int {
    if v.updatedAt.Some? then v.updatedAt.value
    else if v.createdAt.Some? then v.createdAt.value
    else 0
  }

  /** The list is ordered from the most to the least recent. */
  ghost predicate Descending(s: seq<CvEntry>) {
    forall i, j :: 0 <= i < j < |s| ==> Recency(s[i]) >= Recency(s[j])
  }

  /** `v` is one of `s` and no entry of `s` is more recent. */
  ghost predicate LatestOf(v: CvEntry, s: seq<CvEntry>) {
    v in s && forall x :: x in s ==> Recency(x) <= Recency(v)
  }

  /** The comparator `dateB - dateA`, as an insertion sort that moves each entry left past less recent ones. */
  method SortByRecency(a: array<CvEntry>)
    modifies a
    ensures Descending(a[..])
    ensures multiset(a[..]) == multiset(old(a[..]))
  {
    var i := 1;
    while i < a.Length
      invariant a.Length == 0 || 1 <= i <= a.Length
      invariant forall p, q :: 0 <= p < q < i && q < a.Length ==> Recency(a[p]) >= Recency(a[q])
      invariant multiset(a[..]) == multiset(old(a[..]))
    {
      InsertLeft(a, i);
      i := i + 1;
    }
  }

  /** Moves `a[i]` left past the less recent entries of the ordered prefix `a[..i]`. */
  method InsertLeft(a: array<CvEntry>, i: int)
    requires 0 < i < a.Length
    requires forall p, q :: 0 <= p < q < i ==> Recency(a[p]) >= Recency(a[q])
    modifies a
    ensures forall p, q :: 0 <= p < q <= i ==> Recency(a[p]) >= Recency(a[q])
    ensures multiset(a[..]) == multiset(old(a[..]))
  {
    var j := i;
    while j > 0 && Recency(a[j - 1]) < Recency(a[j])
      invariant 0 <= j <= i
      invariant forall p, q :: 0 <= p < q <= i && p != j && q != j ==> Recency(a[p]) >= Recency(a[q])
      invariant forall q :: j < q <= i ==> Recency(a[j]) > Recency(a[q])
      invariant multiset(a[..]) == multiset(old(a[..]))
    {
      SwapDown(a, j);
      j := j - 1;
    }
  }

  /** Exchanges `a[j - 1]` and `a[j]`. */
  method SwapDown(a: array<CvEntry>, j: int)
    requires 0 < j < a.Length
    modifies a
    ensures a[j - 1] == old(a[j]) && a[j] == old(a[j - 1])
    ensures forall k :: 0 <= k < a.Length && k != j - 1 && k != j ==> a[k] == old(a[k])
    ensures multiset(a[..]) == multiset(old(a[..]))
  {
    a[j - 1], a[j] := a[j], a[j - 1];
  }

  /** The first entry of a most-recent-first permutation of `t` is a latest entry of `t`. */
  lemma FirstIsLatest(s: seq<CvEntry>, t: seq<CvEntry>)
    requires Descending(s) && |s| > 0 && multiset(s) == multiset(t)
    ensures LatestOf(s[0], t)
  {
    assert s[0] in multiset(s);
    forall x | x in t ensures Recency(x) <= Recency(s[0]) {
      assert x in multiset(t);
      assert x in multiset(s);
      var m :| 0 <= m < |s| && s[m] == x;
    }
  }

  // ---------------------------------------------------------------- the download link

  const RawUpload := "/raw/upload/"
  const Attachment := "fl_attachment/"

  /**
   * A URL of the media host's raw files gets the attachment flag after its
   * first "/raw/upload/"; any other URL is used as it is.
   */
  function DownloadUrl(url: string): (r: string)
    ensures !(Contains(url, "cloudinary.com") && Contains(url, RawUpload)) ==> r == url
  {
    if Contains(url, "cloudinary.com") && Contains(url, RawUpload)
    then ReplaceFirst(url, RawUpload, RawUpload + Attachment)
    else url
  }

  /**
   * On a hosted raw URL the flag is inserted right after the first
   * "/raw/upload/", and cutting it out again gives back the original URL.
   */
  lemma DownloadUrlInsertsFlag(url: string)
    requires Contains(url, "cloudinary.com") && Contains(url, RawUpload)
    ensures var i := IndexOf(url, RawUpload).value;
      var r := DownloadUrl(url);
      && OccursAt(url, RawUpload, i) && (forall k :: 0 <= k < i ==> !OccursAt(url, RawUpload, k))
      && r == url[..i + |RawUpload|] + Attachment + url[i + |RawUpload|..]
      && |r| == |url| + |Attachment|
      && r[..i + |RawUpload|] + r[i + |RawUpload| + |Attachment|..] == url
  {
    var i := IndexOf(url, RawUpload).value;
    InsertedAfter(url, RawUpload, Attachment, i);
  }

  /** Replacing an occurrence of `pat` by `pat + ins` inserts `ins` after it, and cutting `ins` out undoes it. */
  lemma InsertedAfter(s: string, pat: string, ins: string, i: nat)
    requires OccursAt(s, pat, i)
    ensures var n := i + |pat|; var r := s[..n] + ins + s[n..];
      && s[..i] + (pat + ins) + s[n..] == r
      && |r| == |s| + |ins|
      && r[..n] + r[n + |ins|..] == s
  {
    var n := i + |pat|;
    assert s[..i] + pat == s[..n] by { assert s[i..n] == pat; }
    var r := s[..n] + ins + s[n..];
    assert r[..n] == s[..n];
    assert r[n + |ins|..] == s[n..];
    assert s[..n] + s[n..] == s;
  }

  // ---------------------------------------------------------------- the file name

  /** The characters `/[^a-z0-9_\-]/gi` leaves alone. */
  predicate SafeChar(c: char) {
    ('a' <= c <= 'z') || ('A' <= c <= 'Z') || ('0' <= c <= '9') || c == '_' || c == '-'
  }

  /** `name.replace(/[^a-z0-9_\-]/gi, '_')`. */
  function Sanitized(name: string): (r: string)
    ensures |r| == |name|
    ensures forall i :: 0 <= i < |name| ==> r[i] == (if SafeChar(name[i]) then name[i] else '_')
  {
    if name == [] then []
    else [if SafeChar(name[0]) then name[0] else '_'] + Sanitized(name[1..])
  }

  /** The saved file's name: the sanitised CV name with the ".pdf" extension. */
  function DownloadName(name: string): (r: string)
    ensures |r| == |name| + 4 && r[|name|..] == ".pdf"
    ensures forall i :: 0 <= i < |name| ==> SafeChar(r[i])
  {
    Sanitized(name) + ".pdf"
  }

  /** Sanitising keeps a name that is already safe and is idempotent. */
  lemma SanitizedKeepsSafeNames(name: string)
    ensures (forall i :: 0 <= i < |name| ==> SafeChar(name[i])) ==> Sanitized(name) == name
    ensures Sanitized(Sanitized(name)) == Sanitized(name)
  {
    var r := Sanitized(name);
    assert forall i :: 0 <= i < |r| ==> SafeChar(r[i]);
    assert Sanitized(r) == r;
  }

  // ---------------------------------------------------------------- the component

  /** What a click on the download button does. */
  datatype DownloadPlan =
    | NothingToDownload(message: string)
    | Fetch(url: string, filename: string)

  const NoCvMessage := "Aucun CV disponible pour le téléchargement"

  class FaqSection {
    var openItems: set<int>
    var vitae: array<CvEntry>
    var isDownloading: bool

    constructor ()
      ensures openItems == InitiallyOpen && vitae.Length == 0 && !isDownloading && fresh(vitae)
    {
      openItems := InitiallyOpen;
      vitae := new CvEntry[0];
      isDownloading := false;
    }

    method ToggleItem(id: int)
      modifies this
      ensures openItems == Toggled(old(openItems), id)
      ensures vitae == old(vitae) && isDownloading == old(isDownloading)
    {
      var next := openItems;
      if id in next {
        next := next - {id};
      } else {
        next := next + {id};
      }
      openItems := next;
    }

    /** The list the vitae route returned. */
    method Load(entries: seq<CvEntry>)
      modifies this
      ensures fresh(vitae) && vitae[..] == entries
      ensures openItems == old(openItems) && isDownloading == old(isDownloading)
    {
      vitae := new CvEntry[|entries|](i requires 0 <= i < |entries| => entries[i]);
    }

    /**
     * `getLatestVitae`: nothing for an empty list; otherwise the list is
     * sorted most recent first, in place, and its first entry returned.
     */
    method LatestVitae() returns (latest: Option<CvEntry>)
      modifies vitae
      ensures latest.None? <==> vitae.Length == 0
      ensures Descending(vitae[..]) && multiset(vitae[..]) == multiset(old(vitae[..]))
      ensures latest.Some? ==> latest.value == vitae[0] && LatestOf(latest.value, old(vitae[..]))
    {
      if vitae.Length == 0 {
        return None;
      }
      SortByRecency(vitae);
      FirstIsLatest(vitae[..], old(vitae[..]));
      return Some(vitae[0]);
    }

    /**
     * `handleDownload`: with no CV the visitor is told so and nothing
     * happens; otherwise the latest CV is fetched from its download URL and
     * saved under its sanitised name.
     */
    method Download() returns (plan: DownloadPlan)
      modifies this, vitae
      ensures old(vitae.Length) == 0 ==> plan == NothingToDownload(NoCvMessage) && isDownloading == old(isDownloading)
      ensures old(vitae.Length) != 0 ==>
        && !isDownloading && Descending(vitae[..])
        && exists v :: LatestOf(v, old(vitae[..])) && plan == Fetch(DownloadUrl(v.file), DownloadName(v.name))
      ensures vitae == old(vitae) && openItems == old(openItems)
      ensures multiset(vitae[..]) == multiset(old(vitae[..]))
    {
      if vitae.Length == 0 {
        return NothingToDownload(NoCvMessage);
      }
      var latest := LatestVitae();
      var v := latest.value;
      isDownloading := true;
      plan := Fetch(DownloadUrl(v.file), DownloadName(v.name));
      isDownloading := false;
    }
  }
}
