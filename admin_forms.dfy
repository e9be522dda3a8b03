/**
 * The pure part of the administration dashboard: the checks each submit
 * handler makes before it sends anything, the software selection of the
 * project form, and the way a list is reconciled with a route's answer
 * (replace the edited item, append a new one, drop a deleted one).
 */
module AdminForms {

  import opened Common
  import opened Text
  import opened Records
  import opened EmailFormat
  import MediaRoute
  import VitaeRoute
  import ProjectsRoute
  import ExperiencesRoute
  import SubscribeRoute

  /** The catalog the project form offers as check boxes. */
  const AvailableSoftwares: seq<string> := [
    "Matlab", "AutoCAD", "Proteus", "PVsyst", "EasyEDA", "Fusion 360", "TRNSYS", "LTspice",
    "TopSolid", "SimulIDE", "FreeCAD", "TRNBuild", "RETScreen Expert", "Bitzer Software", "Arduino"]

  /** The form offers exactly the names the projects route accepts. */
  lemma CatalogMatchesRoute()
    ensures AvailableSoftwares == ProjectsRoute.AvailableSoftwares
    ensures |AvailableSoftwares| == 15
  {
  }

  const MaxImageBytes: nat := 10 * 1024 * 1024
  const MaxVideoBytes: nat := 100 * 1024 * 1024
  const MaxPdfBytes: nat := 10 * 1024 * 1024
  const VideoTypes: seq<string> := ["video/mp4", "video/webm", "video/mov", "video/avi", "video/quicktime"]

  const TitleAndDescriptionRequired := "Le titre et la description sont requis"
  const ImageTooLarge := "La taille de l'image dépasse la limite de 10 Mo"
  const ImagesOnly := "Seuls les fichiers image sont autorisés"
  const TitleRequired := "Le titre est requis"
  const SelectVideo := "Veuillez sélectionner un fichier vidéo"
  const VideoTooLarge := "La taille de la vidéo dépasse la limite de 100 Mo"
  const VideoFormat := "Format supporté: MP4, WebM, MOV, AVI uniquement"
  const FileTooLarge := "La taille du fichier dépasse la limite de 10 Mo"
  const PdfOnly := "Seuls les fichiers PDF sont autorisés"
  const InvalidEmail := "Veuillez entrer une adresse email valide"

  // ---------------------------------------------------------------- submit checks

  /** The project submit check; `None` lets the request go out. */
  function CheckProject(title: string, description: string): (e: Option<string>)
    ensures e.None? <==> Trim(title) != "" && Trim(description) != ""
    ensures e.Some? ==> e.value == TitleAndDescriptionRequired
  {
    if Trim(title) == "" || Trim(description) == "" then Some(TitleAndDescriptionRequired) else None
  }

  /** A title or description made only of white space is refused. */
  lemma BlankProjectRefused(title: string, description: string)
    requires AllSpace(title) || AllSpace(description)
    ensures CheckProject(title, description) == Some(TitleAndDescriptionRequired)
  {
    TrimEmptyIff(title);
    TrimEmptyIff(description);
  }

  /** The experience image check: only a chosen file is checked, size first. */
  function CheckExperienceImage(image: FormValue): (e: Option<string>)
    ensures e.None? <==>
      (image.Attached? ==> image.file.size <= MaxImageBytes && ExperiencesRoute.ImageMime(image.file))
    ensures image.Attached? && image.file.size > MaxImageBytes ==> e == Some(ImageTooLarge)
    ensures (image.Attached? && image.file.size <= MaxImageBytes && !ExperiencesRoute.ImageMime(image.file))
              ==> e == Some(ImagesOnly)
  {
    if !image.Attached? then None
    else if image.file.size > MaxImageBytes then Some(ImageTooLarge)
    else if !Contains(image.file.mimeType, "image") then Some(ImagesOnly)
    else None
  }

  /** The media submit check: the trimmed title always, the file only for a new video. */
  function CheckMedia(title: string, editing: bool, src: FormValue): (e: Option<string>)
    ensures e.None? <==>
      Trim(title) != ""
      && (!editing ==> src.Attached? && src.file.size <= MaxVideoBytes && src.file.mimeType in VideoTypes)
    ensures Trim(title) == "" ==> e == Some(TitleRequired)
    ensures (Trim(title) != "" && !editing && !src.Attached?) ==> e == Some(SelectVideo)
  {
    if Trim(title) == "" then Some(TitleRequired)
    else if editing then None
    else if !src.Attached? then Some(SelectVideo)
    else if src.file.size > MaxVideoBytes then Some(VideoTooLarge)
    else if src.file.mimeType !in VideoTypes then Some(VideoFormat)
    else None
  }

  /**
   * For a new video with a title, the page accepts exactly the files the
   * media route accepts: the same five types and the same limit.
   */
  lemma MediaCheckAgreesWithRoute(title: string, f: FileInfo)
    requires Trim(title) != ""
    ensures CheckMedia(title, false, Attached(f)).None? <==> MediaRoute.ValidateVideoFile(f).Accepted?
  {
  }

  /**
   * The two sides check in a different order: an oversized file of a wrong
   * type is refused for its size by the page and for its type by the route.
   */
  lemma MediaCheckOrderDiffers(title: string, f: FileInfo)
    requires Trim(title) != "" && f.size > MaxVideoBytes && f.mimeType !in VideoTypes
    ensures CheckMedia(title, false, Attached(f)) == Some(VideoTooLarge)
    ensures MediaRoute.ValidateVideoFile(f) == MediaRoute.Rejected(MediaRoute.FormatMessage)
  {
  }

  /** The CV file check: size first, then a type that mentions "pdf". */
  function CheckVitaeFile(file: FormValue): (e: Option<string>)
    ensures e.None? <==> (file.Attached? ==> file.file.size <= MaxPdfBytes && Contains(file.file.mimeType, "pdf"))
    ensures file.Attached? && file.file.size > MaxPdfBytes ==> e == Some(FileTooLarge)
  {
    if !file.Attached? then None
    else if file.file.size > MaxPdfBytes then Some(FileTooLarge)
    else if !Contains(file.file.mimeType, "pdf") then Some(PdfOnly)
    else None
  }

  /** Every file the vitae route accepts passes the page's check. */
  lemma VitaeCheckAdmitsRouteFiles(f: FileInfo)
    requires VitaeRoute.ValidatePdfFile(f)
    ensures CheckVitaeFile(Attached(f)) == None
  {
    assert OccursAt(f.mimeType, "pdf", 12);
    OccurrenceShowsContains(f.mimeType, "pdf", 12);
  }

  /** The page's check is looser: a type that only mentions "pdf" passes it and is refused by the route. */
  lemma VitaeCheckIsLooser()
    ensures var f := FileInfo("application/x-pdf", 1);
      CheckVitaeFile(Attached(f)) == None && !VitaeRoute.ValidatePdfFile(f)
  {
    var t := "application/x-pdf";
    assert OccursAt(t, "pdf", 14);
    OccurrenceShowsContains(t, "pdf", 14);
  }

  /** The address check of the e-mail form. */
  function CheckEmail(email: string): (e: Option<string>)
    ensures e.None? <==> email != "" && IsValidEmail(email)
    ensures e.Some? ==> e.value == InvalidEmail
  {
    if email == "" || !IsValidEmail(email) then Some(InvalidEmail) else None
  }

  /** The page lets through exactly the addresses the subscription route accepts. */
  lemma EmailCheckAgreesWithRoute(email: string)
    ensures CheckEmail(email).None? <==> SubscribeRoute.AcceptedEmail(Some(email))
  {
  }

  // ---------------------------------------------------------------- software selection

  /** `xs.filter((s) => s !== x)`. */
  function Drop(xs: seq<string>, x: string): (r: seq<string>)
    ensures forall y :: y in r <==> y in xs && y != x
    ensures |r| <= |xs|
  {
    if xs == [] then []
    else if xs[0] == x then Drop(xs[1..], x)
    else [xs[0]] + Drop(xs[1..], x)
  }

  /** Filtering distributes over concatenation, so the kept elements stay in order. */
  lemma {:induction false} DropOfAppend(xs: seq<string>, ys: seq<string>, x: string)
    ensures Drop(xs + ys, x) == Drop(xs, x) + Drop(ys, x)
  {
    if xs == [] {
      assert xs + ys == ys;
    } else {
      assert (xs + ys)[1..] == xs[1..] + ys;
      DropOfAppend(xs[1..], ys, x);
    }
  }

  /** Dropping an element that is absent changes nothing. */
  lemma {:induction false} DropAbsent(xs: seq<string>, x: string)
    requires x !in xs
    ensures Drop(xs, x) == xs
  {
    if xs != [] {
      assert xs[0] != x;
      assert x !in xs[1..];
      DropAbsent(xs[1..], x);
      assert [xs[0]] + xs[1..] == xs;
    }
  }

  /** The check box of `software`: checking appends it, unchecking drops every occurrence. */
  function ToggleSoftware(selected: seq<string>, software: string, checked: bool): (r: seq<string>)
    ensures checked ==> r == selected + [software]
    ensures !checked ==> software !in r
    ensures forall t :: t != software ==> (t in r <==> t in selected)
  {
    if checked then selected + [software] else Drop(selected, software)
  }

  /** Removing a chip has the same effect as unchecking its box. */
  function RemoveChip(selected: seq<string>, software: string): (r: seq<string>)
    ensures r == ToggleSoftware(selected, software, false)
  {
    Drop(selected, software)
  }

  /** Checking and then unchecking a box leaves the selection as if it had never been checked. */
  lemma UncheckUndoesCheck(selected: seq<string>, software: string)
    ensures ToggleSoftware(ToggleSoftware(selected, software, true), software, false) == Drop(selected, software)
    ensures software !in selected ==>
      ToggleSoftware(ToggleSoftware(selected, software, true), software, false) == selected
  {
    DropOfAppend(selected, [software], software);
    assert Drop([software], software) == [];
    assert Drop(selected, software) + [] == Drop(selected, software);
    if software !in selected {
      DropAbsent(selected, software);
    }
  }

  // ---------------------------------------------------------------- list reconciliation

  /** `items.map((x) => x.id === id ? item : x)`. */
  function ReplaceWhere<T>(xs: seq<Keyed<T>>, id: Id, item: Keyed<T>): (r: seq<Keyed<T>>)
    ensures |r| == |xs|
    ensures forall i :: 0 <= i < |xs| ==> r[i] == (if xs[i].id == id then item else xs[i])
  {
    if xs == [] then []
    else [if xs[0].id == id then item else xs[0]] + ReplaceWhere(xs[1..], id, item)
  }

  /** `items.filter((x) => x.id !== id)`. */
  function RemoveWhere<T(==,!new)>(xs: seq<Keyed<T>>, id: Id): (r: seq<Keyed<T>>)
    ensures forall y :: y in r <==> y in xs && y.id != id
    ensures |r| <= |xs|
  {
    if xs == [] then []
    else if xs[0].id == id then RemoveWhere(xs[1..], id)
    else [xs[0]] + RemoveWhere(xs[1..], id)
  }

  /** Removal keeps the order of the remaining items: it distributes over concatenation. */
  lemma {:induction false} RemoveWhereOfAppend<T(!new)>(xs: seq<Keyed<T>>, ys: seq<Keyed<T>>, id: Id)
    ensures RemoveWhere(xs + ys, id) == RemoveWhere(xs, id) + RemoveWhere(ys, id)
  {
    if xs == [] {
      assert xs + ys == ys;
    } else {
      assert (xs + ys)[1..] == xs[1..] + ys;
      RemoveWhereOfAppend(xs[1..], ys, id);
    }
  }

  /** Removing an id no item carries changes nothing. */
  lemma {:induction false} RemoveWhereAbsent<T(!new)>(xs: seq<Keyed<T>>, id: Id)
    requires forall i :: 0 <= i < |xs| ==> xs[i].id != id
    ensures RemoveWhere(xs, id) == xs
  {
    if xs != [] {
      RemoveWhereAbsent(xs[1..], id);
      assert [xs[0]] + xs[1..] == xs;
    }
  }

  /**
   * The list after a successful save: with an item being edited, only the
   * entries carrying its id are replaced; otherwise the new item is appended.
   */
  function Reconciled<T>(xs: seq<Keyed<T>>, editingId: Option<Id>, item: Keyed<T>): (r: seq<Keyed<T>>)
    ensures editingId.Some? ==> |r| == |xs|
    ensures editingId.Some? ==>
      forall i :: 0 <= i < |xs| ==> r[i] == (if xs[i].id == editingId.value then item else xs[i])
    ensures editingId.None? ==> r == xs + [item]
  {
    if editingId.Some? then ReplaceWhere(xs, editingId.value, item) else xs + [item]
  }
}
