/**
 * The projects route: POST, PUT and DELETE on the `projects` collection and
 * the images the media host keeps in its "projects" folder. A project keeps
 * only its image URL; the route finds the hosted file again as "projects/"
 * followed by the stem of that URL. PUT uploads a new image first and then
 * deletes the old one; neither PUT nor DELETE has a not-found reply.
 */
module ProjectsRoute {

  import opened Common
  import opened Records
  import opened MediaHost
  import BlobLedger

  /** The software names a project may list. */
  const AvailableSoftwares: seq<string> := [
    "Matlab", "AutoCAD", "Proteus", "PVsyst", "EasyEDA", "Fusion 360", "TRNSYS", "LTspice",
    "TopSolid", "SimulIDE", "FreeCAD", "TRNBuild", "RETScreen Expert", "Bitzer Software", "Arduino"]

  const InvalidSoftwaresMessage := "Logiciels invalides"
  const CreateFailedMessage := "Échec de la création du projet"
  const UpdateFailedMessage := "Échec de la mise à jour du projet"
  const DeleteFailedMessage := "Échec de la suppression du projet"

  /** The catalog has fifteen names, none listed twice. */
  lemma CatalogShape()
    ensures |AvailableSoftwares| == 15
    ensures forall i, j :: 0 <= i < j < |AvailableSoftwares| ==> AvailableSoftwares[i] != AvailableSoftwares[j]
  {
  }

  /**
   * The `softwares` form field: absent or empty, text `JSON.parse` rejects,
   * JSON that is not an array of strings, or an array of names.
   */
  datatype SoftwaresField = NoSoftwares | Unparsable | NotAList | Names(names: seq<string>)

  datatype SoftwaresCheck = SoftwaresOk(names: seq<string>) | SoftwaresRejected | SoftwaresCrashed

  /** `list.every((s) => AVAILABLE_SOFTWARES.includes(s))`. */
  function AllInCatalog(names: seq<string>): (b: bool)
    ensures b <==> forall i :: 0 <= i < |names| ==> names[i] in AvailableSoftwares
  {
    if names == [] then true
    else names[0] in AvailableSoftwares && AllInCatalog(names[1..])
  }

  /**
   * The software check both POST and PUT make before anything else: an
   * absent field is the empty list, a parse error is thrown (and answered
   * 500), and anything but an array of catalog names is refused.
   */
  function CheckSoftwares(f: SoftwaresField): (c: SoftwaresCheck)
    ensures c.SoftwaresOk? <==> f.NoSoftwares? || (f.Names? && forall i :: 0 <= i < |f.names| ==> f.names[i] in AvailableSoftwares)
    ensures c.SoftwaresOk? ==> forall i :: 0 <= i < |c.names| ==> c.names[i] in AvailableSoftwares
    ensures c.SoftwaresOk? && f.NoSoftwares? ==> c.names == []
    ensures c.SoftwaresOk? && f.Names? ==> c.names == f.names
    ensures c.SoftwaresCrashed? <==> f.Unparsable?
  {
    match f
    case NoSoftwares => SoftwaresOk([])
    case Unparsable => SoftwaresCrashed
    case NotAList => SoftwaresRejected
    case Names(names) => if AllInCatalog(names) then SoftwaresOk(names) else SoftwaresRejected
  }

  /** The file the route deletes for a project: "projects/" and the stem of a truthy image URL, when non-empty. */
  function ProjectRef(p: Project): (r: Option<BlobId>)
    ensures r.Some? ==> Truthy(p.image) && r.value == "projects/" + FileStem(p.image.value)
    ensures r.None? ==> !Truthy(p.image) || FileStem(p.image.value) == ""
  {
    if Truthy(p.image) && FileStem(p.image.value) != "" then Some("projects/" + FileStem(p.image.value)) else None
  }

  /** The `projects` collection and the hosted images. */
  type Store = Stores<Project>

  ghost predicate Consistent(s: Store) {
    BlobLedger.Consistent(s.docs, s.blobs, ProjectRef)
  }

  /** A hosted upload the route can find again from its URL, and not hosted before. */
  predicate FreshLocated(u: Upload, blobs: set<BlobId>) {
    FreshBlob(u.publicId, blobs) && Locates("projects", u.secureUrl, u.publicId)
  }

  lemma LocatedIsNamed(p: Project, u: Upload)
    requires Locates("projects", u.secureUrl, u.publicId) && p.image == Some(u.secureUrl)
    ensures ProjectRef(p) == Some(u.publicId)
  {
    var stem := FileStem(u.secureUrl);
    assert u.secureUrl != "" by { assert 0 < |stem| <= |u.secureUrl|; }
    var folder: string := "projects/";
    assert "projects" + "/" == folder;
    assert u.publicId == folder + stem;
  }

  function Failed<T>(message: string, s: Store): Handled<T, Project> {
    Handled(Failure(500, message), s)
  }

  // ---------------------------------------------------------------- POST

  /** A multipart POST; `parsed` is false when the body is not a form. */
  datatype PostRequest = PostRequest(parsed: bool, title: string, description: string, image: FormValue,
                                     softwares: SoftwaresField)

  /**
   * POST: the software check, the upload when an image is attached (a
   * non-empty string there fails when the route reads it as a file), then
   * the save. There is no check of the title or the description.
   */
  function PostEffect(s: Store, req: PostRequest, upload: UploadOutcome, save: StoreOutcome, now: Timestamp)
    : (h: Handled<Saved<Project>, Project>)
    ensures h.after.nextId >= s.nextId
  {
    if !req.parsed then Failed(CreateFailedMessage, s)
    else match CheckSoftwares(req.softwares)
    case SoftwaresCrashed => Failed(CreateFailedMessage, s)
    case SoftwaresRejected => Handled(Refusal(400, InvalidSoftwaresMessage), s)
    case SoftwaresOk(names) =>
      if !FormTruthy(req.image) then PostCommit(s, req, names, None, save, now)
      else if !req.image.Attached? then Failed(CreateFailedMessage, s)
      else match upload
      case UploadFailed(_) => Failed(CreateFailedMessage, s)
      case Uploaded(u) => PostCommit(s.(blobs := s.blobs + {u.publicId}), req, names, Some(u.secureUrl), save, now)
  }

  function PostCommit(s: Store, req: PostRequest, names: seq<string>, image: Option<string>, save: StoreOutcome,
                      now: Timestamp): (h: Handled<Saved<Project>, Project>)
    ensures h.after.nextId >= s.nextId && h.after.blobs == s.blobs
  {
    match save
    case StoreFailed(_) => Failed(CreateFailedMessage, s)
    case Stored =>
      var r := Project(req.title, req.description, image, names, Some(now), Some(now));
      Handled(Success(200, Saved(s.nextId, r)), Stores(s.docs[s.nextId := r], s.blobs, s.nextId + 1))
  }

  /** POST uploads: the body parsed, the software check passed and a file is attached. */
  predicate PostUploads(req: PostRequest) {
    req.parsed && CheckSoftwares(req.softwares).SoftwaresOk? && req.image.Attached?
  }

  /**
   * The software check comes before any call: a list that is not made of
   * catalog names is refused with 400, whatever the upload and the save would
   * do, and nothing changes.
   */
  lemma PostChecksSoftwaresFirst(s: Store, req: PostRequest, upload: UploadOutcome, save: StoreOutcome,
                                 now: Timestamp, upload': UploadOutcome, save': StoreOutcome, now': Timestamp)
    requires req.parsed && CheckSoftwares(req.softwares).SoftwaresRejected?
    ensures var h := PostEffect(s, req, upload, save, now);
      && h == PostEffect(s, req, upload', save', now')
      && h.reply == Refusal(400, InvalidSoftwaresMessage) && h.after == s
  {
  }

  /**
   * A record is inserted exactly when the checks pass, the upload (if an
   * image is attached) succeeds and the save succeeds. It then carries the
   * submitted title and description, the checked software list and the
   * uploaded URL, or no image (and no upload happened) when none was sent.
   */
  lemma PostInsertsOnlyOnSuccess(s: Store, req: PostRequest, upload: UploadOutcome, save: StoreOutcome,
                                 now: Timestamp)
    requires Issued(s)
    ensures var h := PostEffect(s, req, upload, save, now);
      var c := CheckSoftwares(req.softwares);
      && (h.reply.status == 200 <==>
            req.parsed && c.SoftwaresOk? && save.Stored?
            && (FormTruthy(req.image) ==> req.image.Attached? && upload.Uploaded?))
      && (h.reply.status != 200 ==> h.after.docs == s.docs && h.after.nextId == s.nextId)
      && (h.reply.status == 200 ==>
            var r := h.after.docs[s.nextId];
            && s.nextId !in s.docs && h.after.docs == s.docs[s.nextId := r]
            && h.reply.data == Some(Saved(s.nextId, r))
            && r.title == req.title && r.description == req.description && r.softwares == c.names
            && r.createdAt == Some(now) && r.updatedAt == Some(now)
            && (req.image.Attached? ==> r.image == Some(upload.upload.secureUrl))
            && (!FormTruthy(req.image) ==> r.image.None? && h.after.blobs == s.blobs))
  {
  }

  lemma PostKeepsIssued(s: Store, req: PostRequest, upload: UploadOutcome, save: StoreOutcome, now: Timestamp)
    requires Issued(s)
    ensures Issued(PostEffect(s, req, upload, save, now).after)
  {
    var h := PostEffect(s, req, upload, save, now);
    forall k | k in h.after.docs ensures k < h.after.nextId {
      if k != s.nextId { assert k in s.docs; }
    }
  }

  /**
   * From consistent stores and a fresh upload the route can find again, POST
   * ends consistent unless the save after the upload fails, which leaves an
   * orphan image.
   */
  lemma PostLedger(s: Store, req: PostRequest, upload: UploadOutcome, save: StoreOutcome, now: Timestamp)
    requires Issued(s) && Consistent(s)
    requires upload.Uploaded? ==> FreshLocated(upload.upload, s.blobs)
    ensures Consistent(PostEffect(s, req, upload, save, now).after)
      <==> !(PostUploads(req) && upload.Uploaded? && save.StoreFailed?)
  {
    if PostUploads(req) && upload.Uploaded? {
      var names := CheckSoftwares(req.softwares).names;
      var u := upload.upload;
      assert PostEffect(s, req, upload, save, now)
        == PostCommit(s.(blobs := s.blobs + {u.publicId}), req, names, Some(u.secureUrl), save, now);
      if save.StoreFailed? {
        BlobLedger.FreshOrphanBreaks(s.docs, s.blobs, ProjectRef, u.publicId);
      } else {
        var r := Project(req.title, req.description, Some(u.secureUrl), names, Some(now), Some(now));
        LocatedIsNamed(r, u);
        BlobLedger.InsertKeeps(s.docs, s.blobs, ProjectRef, s.nextId, r);
      }
    } else if req.parsed && CheckSoftwares(req.softwares).SoftwaresOk? && !FormTruthy(req.image) && save.Stored? {
      var names := CheckSoftwares(req.softwares).names;
      assert PostEffect(s, req, upload, save, now) == PostCommit(s, req, names, None, save, now);
      var r := Project(req.title, req.description, None, names, Some(now), Some(now));
      BlobLedger.InsertKeeps(s.docs, s.blobs, ProjectRef, s.nextId, r);
    }
  }

  // ---------------------------------------------------------------- PUT

  /** A multipart PUT; `image` is a file, a URL string, or missing. */
  datatype PutRequest = PutRequest(parsed: bool, id: Option<Id>, title: string, description: string,
                                   image: FormValue, softwares: SoftwaresField)

  /** `image as string | undefined` for a value that is not a file. */
  function ImageText(v: FormValue): (r: Option<string>)
    requires !v.Attached?
    ensures v.Missing? <==> r.None?
    ensures v.Text? ==> r == Some(v.text)
  {
    if v.Text? then Some(v.text) else None
  }

  /**
   * PUT: the software check; with a file, the upload and then the deletion
   * of the old image (whose failure aborts); then the write, which fails for
   * a missing or unknown id.
   */
  function PutEffect(s: Store, req: PutRequest, upload: UploadOutcome, destroyOk: bool, update: StoreOutcome,
                     now: Timestamp): (h: Handled<Saved<Project>, Project>)
    ensures h.after.docs.Keys == s.docs.Keys && h.after.nextId == s.nextId
  {
    if !req.parsed then Failed(UpdateFailedMessage, s)
    else match CheckSoftwares(req.softwares)
    case SoftwaresCrashed => Failed(UpdateFailedMessage, s)
    case SoftwaresRejected => Handled(Refusal(400, InvalidSoftwaresMessage), s)
    case SoftwaresOk(names) =>
      if !req.image.Attached? then PutCommit(s, req, names, ImageText(req.image), update, now)
      else match upload
      case UploadFailed(_) => Failed(UpdateFailedMessage, s)
      case Uploaded(u) =>
        var uploaded := s.(blobs := s.blobs + {u.publicId});
        if req.id.None? then Failed(UpdateFailedMessage, uploaded)
        else PutReplace(uploaded, req, req.id.value, names, u.secureUrl, destroyOk, update, now)
  }

  /** The image the stored project `id` names, if the project exists. */
  function OldImage(s: Store, id: Id): Option<BlobId> {
    if id in s.docs then ProjectRef(s.docs[id]) else None
  }

  /** PUT after the upload: delete the old image (a failure aborts with 500), then write. */
  function PutReplace(s: Store, req: PutRequest, id: Id, names: seq<string>, url: string, destroyOk: bool,
                      update: StoreOutcome, now: Timestamp): (h: Handled<Saved<Project>, Project>)
    requires req.id == Some(id)
    ensures h.after.docs.Keys == s.docs.Keys && h.after.nextId == s.nextId
  {
    var prior := OldImage(s, id);
    if prior.Some? && !destroyOk then Failed(UpdateFailedMessage, s)
    else
      var cleared := if prior.Some? then s.(blobs := s.blobs - {prior.value}) else s;
      PutCommit(cleared, req, names, Some(url), update, now)
  }

  /** PUT's write: `updateDoc` fails on a missing or unknown id. */
  function PutCommit(s: Store, req: PutRequest, names: seq<string>, image: Option<string>, update: StoreOutcome,
                     now: Timestamp): (h: Handled<Saved<Project>, Project>)
    ensures h.after.docs.Keys == s.docs.Keys && h.after.nextId == s.nextId && h.after.blobs == s.blobs
  {
    if req.id.None? || req.id.value !in s.docs || update.StoreFailed? then Failed(UpdateFailedMessage, s)
    else
      var id := req.id.value;
      var r := Project(req.title, req.description, image, names, s.docs[id].createdAt, Some(now));
      Handled(Success(200, Saved(id, r)), s.(docs := s.docs[id := r]))
  }

  /** PUT writes: the checks pass, the id is known, and the upload, deletion and write that happen succeed. */
  predicate PutWrites(s: Store, req: PutRequest, upload: UploadOutcome, destroyOk: bool, update: StoreOutcome) {
    && req.parsed && CheckSoftwares(req.softwares).SoftwaresOk?
    && req.id.Some? && req.id.value in s.docs && update.Stored?
    && (req.image.Attached? ==> upload.Uploaded? && (ProjectRef(s.docs[req.id.value]).Some? ==> destroyOk))
  }

  /** The software check comes before any call on PUT as well. */
  lemma PutChecksSoftwaresFirst(s: Store, req: PutRequest, upload: UploadOutcome, destroyOk: bool,
                                update: StoreOutcome, now: Timestamp,
                                upload': UploadOutcome, destroyOk': bool, update': StoreOutcome, now': Timestamp)
    requires req.parsed && CheckSoftwares(req.softwares).SoftwaresRejected?
    ensures var h := PutEffect(s, req, upload, destroyOk, update, now);
      && h == PutEffect(s, req, upload', destroyOk', update', now')
      && h.reply == Refusal(400, InvalidSoftwaresMessage) && h.after == s
  {
  }

  /**
   * PUT writes exactly when `PutWrites` holds, and then replaces the one
   * record; with a file the new URL is stored, and otherwise the submitted
   * value is stored as it is, with no call to the media host.
   */
  lemma PutRewritesOnlyOnSuccess(s: Store, req: PutRequest, upload: UploadOutcome, destroyOk: bool,
                                 update: StoreOutcome, now: Timestamp)
    ensures var h := PutEffect(s, req, upload, destroyOk, update, now);
      && (h.reply.status == 200 <==> PutWrites(s, req, upload, destroyOk, update))
      && (h.reply.status != 200 ==> h.after.docs == s.docs)
      && (!req.image.Attached? ==> h.after.blobs == s.blobs)
      && (h.reply.status == 200 ==>
            var id := req.id.value;
            var r := h.after.docs[id];
            && h.after.docs == s.docs[id := r] && h.reply.data == Some(Saved(id, r))
            && r.title == req.title && r.description == req.description
            && r.softwares == CheckSoftwares(req.softwares).names && r.createdAt == s.docs[id].createdAt
            && (req.image.Attached? ==> r.image == Some(upload.upload.secureUrl))
            && (!req.image.Attached? ==> r.image == ImageText(req.image)))
  {
  }

  /**
   * With a file, the new image is uploaded before the old one is deleted:
   * when that deletion fails the reply is 500, the record is unchanged and
   * both images are hosted; when the id is unknown the upload stays behind.
   */
  lemma PutUploadsThenDeletes(s: Store, req: PutRequest, upload: UploadOutcome, destroyOk: bool,
                              update: StoreOutcome, now: Timestamp)
    requires req.parsed && CheckSoftwares(req.softwares).SoftwaresOk? && req.image.Attached? && upload.Uploaded?
    ensures var h := PutEffect(s, req, upload, destroyOk, update, now);
      var p := upload.upload.publicId;
      && (req.id.None? ==> h.reply == Failed<Saved<Project>>(UpdateFailedMessage, s).reply && h.after == s.(blobs := s.blobs + {p}))
      && (req.id.Some? && OldImage(s, req.id.value).Some? && !destroyOk ==>
            h.reply.status == 500 && h.after == s.(blobs := s.blobs + {p}))
      && (req.id.Some? && OldImage(s, req.id.value).Some? && destroyOk ==>
            h.after.blobs == s.blobs + {p} - {OldImage(s, req.id.value).value})
      && (req.id.Some? && OldImage(s, req.id.value).None? ==> h.after.blobs == s.blobs + {p})
  {
  }

  /**
   * From consistent stores and a fresh upload the route can find again: a
   * PUT with a file ends consistent when it writes, and leaves the upload
   * orphaned on every other reply after the upload.
   */
  lemma PutLedger(s: Store, req: PutRequest, upload: UploadOutcome, destroyOk: bool, update: StoreOutcome,
                  now: Timestamp)
    requires Consistent(s) && req.parsed && CheckSoftwares(req.softwares).SoftwaresOk? && req.image.Attached?
    requires upload.Uploaded? && FreshLocated(upload.upload, s.blobs)
    ensures var h := PutEffect(s, req, upload, destroyOk, update, now);
      Consistent(h.after) <==> h.reply.status == 200
  {
    PutRewritesOnlyOnSuccess(s, req, upload, destroyOk, update, now);
    PutUploadsThenDeletes(s, req, upload, destroyOk, update, now);
    var h := PutEffect(s, req, upload, destroyOk, update, now);
    var u := upload.upload;
    var p := u.publicId;
    if h.reply.status == 200 {
      var id := req.id.value;
      var r := h.after.docs[id];
      LocatedIsNamed(r, u);
      BlobLedger.ReplaceKeeps(s.docs, s.blobs, ProjectRef, id, r);
      assert h.after.blobs == s.blobs - BlobLedger.RefSet(ProjectRef(s.docs[id])) + {p} by {
        if ProjectRef(s.docs[id]).Some? {
          BlobLedger.RefsMember(s.docs, ProjectRef, id);
        }
      }
    } else {
      BlobLedger.FreshIsUnnamed(s.docs, s.blobs, ProjectRef, p);
      var prior := if req.id.Some? then OldImage(s, req.id.value) else None;
      if prior.Some? && destroyOk {
        BlobLedger.OrphanBreaks(s.docs, s.blobs + {p} - {prior.value}, ProjectRef, p);
      } else {
        BlobLedger.OrphanBreaks(s.docs, s.blobs + {p}, ProjectRef, p);
      }
    }
  }

  /**
   * Without a file nothing is hosted or deleted: a write that keeps the file
   * the record names keeps consistent stores consistent, and a write that
   * drops a named image (the image field left out) leaves it orphaned.
   */
  lemma PutWithoutFileLedger(s: Store, req: PutRequest, upload: UploadOutcome, destroyOk: bool,
                             update: StoreOutcome, now: Timestamp)
    requires Consistent(s) && !req.image.Attached?
    ensures var h := PutEffect(s, req, upload, destroyOk, update, now);
      && ((h.reply.status == 200 && ProjectRef(h.after.docs[req.id.value]) == ProjectRef(s.docs[req.id.value]))
            ==> Consistent(h.after))
      && ((h.reply.status == 200 && req.image.Missing? && ProjectRef(s.docs[req.id.value]).Some?)
            ==> !Consistent(h.after))
      && (h.reply.status != 200 ==> h.after == s)
  {
    PutRewritesOnlyOnSuccess(s, req, upload, destroyOk, update, now);
    var h := PutEffect(s, req, upload, destroyOk, update, now);
    if h.reply.status == 200 {
      var id := req.id.value;
      var r := h.after.docs[id];
      if ProjectRef(r) == ProjectRef(s.docs[id]) {
        BlobLedger.SameRefKeeps(s.docs, s.blobs, ProjectRef, id, r);
      }
      if req.image.Missing? && ProjectRef(s.docs[id]).Some? {
        BlobLedger.RefsMember(s.docs, ProjectRef, id);
        BlobLedger.RenamedIsUnnamed(s.docs, s.blobs, ProjectRef, id, r);
        BlobLedger.OrphanBreaks(s.docs[id := r], s.blobs, ProjectRef, ProjectRef(s.docs[id]).value);
      }
    }
  }

  // ---------------------------------------------------------------- DELETE

  /** A JSON DELETE body; `parsed` is false when it is not JSON. */
  datatype DeleteRequest = DeleteRequest(parsed: bool, id: Option<Id>)

  /**
   * DELETE: the image is deleted first, and a failure there aborts; then the
   * record is deleted. A missing id fails when the route builds the
   * document reference; an unknown id deletes nothing and still succeeds.
   */
  function DeleteEffect(s: Store, req: DeleteRequest, destroyOk: bool, removal: StoreOutcome): (h: Handled<(), Project>)
    ensures h.after.nextId == s.nextId && h.after.docs.Keys <= s.docs.Keys
  {
    if !req.parsed || req.id.None? then Failed(DeleteFailedMessage, s)
    else
      var id := req.id.value;
      var prior := OldImage(s, id);
      if prior.Some? && !destroyOk then Failed(DeleteFailedMessage, s)
      else
        var cleared := if prior.Some? then s.blobs - {prior.value} else s.blobs;
        match removal
        case StoreFailed(_) => Failed(DeleteFailedMessage, s.(blobs := cleared))
        case Stored => Handled(Reply(200, Some(true), None, None), s.(docs := s.docs - {id}, blobs := cleared))
  }

  /**
   * There is no not-found reply: an unknown id answers 200 and changes
   * nothing. A failed image deletion answers 500 and leaves the record.
   */
  lemma DeleteHasNoNotFound(s: Store, req: DeleteRequest, destroyOk: bool, removal: StoreOutcome)
    requires req.parsed && req.id.Some?
    ensures var h := DeleteEffect(s, req, destroyOk, removal);
      var id := req.id.value;
      && (id !in s.docs && removal.Stored? ==> h.reply.status == 200 && h.after == s)
      && (OldImage(s, id).Some? && !destroyOk ==> h.reply == Failure(500, DeleteFailedMessage) && h.after == s)
      && (h.reply.status == 200 <==> removal.Stored? && (OldImage(s, id).Some? ==> destroyOk))
      && (h.reply.status == 200 ==> h.after.docs == s.docs - {id})
  {
  }

  /**
   * On consistent stores DELETE ends consistent except when the image was
   * deleted and the record's deletion then failed, which leaves the record
   * naming a deleted image.
   */
  lemma DeleteLedger(s: Store, req: DeleteRequest, destroyOk: bool, removal: StoreOutcome)
    requires Consistent(s)
    ensures var h := DeleteEffect(s, req, destroyOk, removal);
      Consistent(h.after) <==>
        !(req.parsed && req.id.Some? && OldImage(s, req.id.value).Some? && destroyOk && removal.StoreFailed?)
  {
    if req.parsed && req.id.Some? {
      var k := req.id.value;
      var prior := OldImage(s, k);
      if k in s.docs {
        BlobLedger.RemoveKeeps(s.docs, s.blobs, ProjectRef, k);
        if prior.Some? && destroyOk && removal.StoreFailed? {
          BlobLedger.DanglingBreaks(s.docs, s.blobs - {prior.value}, ProjectRef, k);
        }
      } else {
        assert s.docs - {k} == s.docs;
      }
    }
  }

  // ---------------------------------------------------------------- the route

  /** The `projects` collection and the media host as the route handlers see them. */
  class Services {
    var projects: map<Id, Project>
    var blobs: set<BlobId>
    var nextId: Id

    function State(): Store
      reads this
    {
      Stores(projects, blobs, nextId)
    }

    constructor ()
      ensures State() == Stores(map[], {}, 0) && Issued(State()) && Consistent(State())
    {
      projects, blobs, nextId := map[], {}, 0;
    }

    method Post(req: PostRequest, upload: UploadOutcome, save: StoreOutcome, now: Timestamp)
      returns (resp: Reply<Saved<Project>>)
      modifies this
      ensures var h := PostEffect(old(State()), req, upload, save, now);
        resp == h.reply && State() == h.after
    {
      if !req.parsed {
        return Failure(500, CreateFailedMessage);
      }
      var check := CheckSoftwares(req.softwares);
      if check.SoftwaresCrashed? {
        return Failure(500, CreateFailedMessage);
      }
      if check.SoftwaresRejected? {
        return Refusal(400, InvalidSoftwaresMessage);
      }
      var imageUrl: Option<string> := None;
      if FormTruthy(req.image) {
        if !req.image.Attached? || upload.UploadFailed? {
          return Failure(500, CreateFailedMessage);
        }
        blobs := blobs + {upload.upload.publicId};
        imageUrl := Some(upload.upload.secureUrl);
      }
      if save.StoreFailed? {
        return Failure(500, CreateFailedMessage);
      }
      var record := Project(req.title, req.description, imageUrl, check.names, Some(now), Some(now));
      var id := nextId;
      projects := projects[id := record];
      nextId := nextId + 1;
      return Success(200, Saved(id, record));
    }

    method Put(req: PutRequest, upload: UploadOutcome, destroyOk: bool, update: StoreOutcome, now: Timestamp)
      returns (resp: Reply<Saved<Project>>)
      modifies this
      ensures var h := PutEffect(old(State()), req, upload, destroyOk, update, now);
        resp == h.reply && State() == h.after
    {
      if !req.parsed {
        return Failure(500, UpdateFailedMessage);
      }
      var check := CheckSoftwares(req.softwares);
      if check.SoftwaresCrashed? {
        return Failure(500, UpdateFailedMessage);
      }
      if check.SoftwaresRejected? {
        return Refusal(400, InvalidSoftwaresMessage);
      }
      var imageUrl: Option<string>;
      if req.image.Attached? {
        if upload.UploadFailed? {
          return Failure(500, UpdateFailedMessage);
        }
        blobs := blobs + {upload.upload.publicId};
        imageUrl := Some(upload.upload.secureUrl);
        if req.id.None? {
          return Failure(500, UpdateFailedMessage);
        }
        var id := req.id.value;
        if id in projects && ProjectRef(projects[id]).Some? {
          if !destroyOk {
            return Failure(500, UpdateFailedMessage);
          }
          blobs := blobs - {ProjectRef(projects[id]).value};
        }
      } else {
        imageUrl := ImageText(req.image);
      }
      if req.id.None? || req.id.value !in projects || update.StoreFailed? {
        return Failure(500, UpdateFailedMessage);
      }
      var id := req.id.value;
      var record := Project(req.title, req.description, imageUrl, check.names, projects[id].createdAt, Some(now));
      projects := projects[id := record];
      return Success(200, Saved(id, record));
    }

    method Delete(req: DeleteRequest, destroyOk: bool, removal: StoreOutcome) returns (resp: Reply<()>)
      modifies this
      ensures var h := DeleteEffect(old(State()), req, destroyOk, removal);
        resp == h.reply && State() == h.after
    {
      if !req.parsed || req.id.None? {
        return Failure(500, DeleteFailedMessage);
      }
      var id := req.id.value;
      var prior := OldImage(State(), id);
      if prior.Some? {
        if !destroyOk {
          return Failure(500, DeleteFailedMessage);
        }
        blobs := blobs - {prior.value};
      }
      assert State() == old(State()).(blobs := if prior.Some? then old(blobs) - {prior.value} else old(blobs));
      if removal.StoreFailed? {
        return Failure(500, DeleteFailedMessage);
      }
      projects := projects - {id};
      return Reply(200, Some(true), None, None);
    }
  }
}
