/**
 * The experiences route: POST, PUT and DELETE on the `experiences`
 * collection and the images the media host keeps in its "experiences"
 * folder. As for projects, the hosted file is found again from the image URL,
 * here as "experiences/" followed by its stem; PUT deletes the old image
 * before uploading the new one.
 */
module ExperiencesRoute {

  import opened Common
  import opened Text
  import opened Records
  import opened MediaHost
  import BlobLedger

  const OnlyImagesMessage := "Only image files are allowed"
  const CreateFailedMessage := "Failed to create experience"
  const UpdateFailedMessage := "Failed to update experience"
  const DeleteFailedMessage := "Failed to delete experience"

  /** `formData.get("verified") === "true"`. */
  function ParseVerified(v: FormValue): (b: bool)
    ensures b <==> v.Text? && v.text == "true"
  {
    match v
    case Text(t) => t == "true"
    case _ => false
  }

  /** `image.type.includes("image")`. */
  predicate ImageMime(f: FileInfo) {
    Contains(f.mimeType, "image")
  }

  /** The file the route deletes for an experience: "experiences/" and the stem of a truthy image URL. */
  function ExperienceRef(e: Experience): (r: Option<BlobId>)
    ensures r.Some? <==> Truthy(e.image)
    ensures r.Some? ==> r.value == "experiences/" + FileStem(e.image.value)
  {
    if Truthy(e.image) then Some("experiences/" + FileStem(e.image.value)) else None
  }

  /** The `experiences` collection and the hosted images. */
  type Store = Stores<Experience>

  ghost predicate Consistent(s: Store) {
    BlobLedger.Consistent(s.docs, s.blobs, ExperienceRef)
  }

  /** A hosted upload the route can find again from its URL, and not hosted before. */
  predicate FreshLocated(u: Upload, blobs: set<BlobId>) {
    FreshBlob(u.publicId, blobs) && Locates("experiences", u.secureUrl, u.publicId)
  }

  lemma LocatedIsNamed(e: Experience, u: Upload)
    requires Locates("experiences", u.secureUrl, u.publicId) && e.image == Some(u.secureUrl)
    ensures ExperienceRef(e) == Some(u.publicId)
  {
    var stem := FileStem(u.secureUrl);
    assert u.secureUrl != "" by { assert 0 < |stem| <= |u.secureUrl|; }
    var folder: string := "experiences/";
    assert "experiences" + "/" == folder;
    assert u.publicId == folder + stem;
  }

  /** The image the stored experience `id` names, if the experience exists. */
  function OldImage(s: Store, id: Id): Option<BlobId> {
    if id in s.docs then ExperienceRef(s.docs[id]) else None
  }

  function Failed<T>(message: string, s: Store): Handled<T, Experience> {
    Handled(Failure(500, message), s)
  }

  // ---------------------------------------------------------------- POST

  /** A multipart POST; `parsed` is false when the body is not a form. */
  datatype PostRequest = PostRequest(parsed: bool, name: string, subject: string, verified: FormValue,
                                     image: FormValue)

  /**
   * POST: an image file is required (reading the type of anything else
   * throws, answered 500), its type must mention "image", then the upload
   * and the save.
   */
  function PostEffect(s: Store, req: PostRequest, upload: UploadOutcome, save: StoreOutcome)
    : (h: Handled<Saved<Experience>, Experience>)
    ensures h.after.nextId >= s.nextId
  {
    if !req.parsed || !req.image.Attached? then Failed(CreateFailedMessage, s)
    else if !ImageMime(req.image.file) then Handled(Failure(400, OnlyImagesMessage), s)
    else match upload
    case UploadFailed(_) => Failed(CreateFailedMessage, s)
    case Uploaded(u) =>
      var uploaded := s.blobs + {u.publicId};
      match save
      case StoreFailed(_) => Failed(CreateFailedMessage, s.(blobs := uploaded))
      case Stored =>
        var r := Experience(req.name, req.subject, Some(u.secureUrl), ParseVerified(req.verified));
        Handled(Success(200, Saved(s.nextId, r)), Stores(s.docs[s.nextId := r], uploaded, s.nextId + 1))
  }

  /** POST uploads: the body parsed and an image file is attached. */
  predicate PostUploads(req: PostRequest) {
    req.parsed && req.image.Attached? && ImageMime(req.image.file)
  }

  /** A file whose type does not mention "image" is refused with 400 before the upload. */
  lemma PostRejectsNonImage(s: Store, req: PostRequest, upload: UploadOutcome, save: StoreOutcome,
                            upload': UploadOutcome, save': StoreOutcome)
    requires req.parsed && req.image.Attached? && !ImageMime(req.image.file)
    ensures var h := PostEffect(s, req, upload, save);
      && h == PostEffect(s, req, upload', save')
      && h.reply == Failure(400, OnlyImagesMessage) && h.after == s
  {
  }

  /**
   * POST inserts exactly when the image is accepted and both the upload and
   * the save succeed; the record is then exactly the name, the subject, the
   * uploaded URL and the parsed flag.
   */
  lemma PostStoresExactly(s: Store, req: PostRequest, upload: UploadOutcome, save: StoreOutcome)
    requires Issued(s)
    ensures var h := PostEffect(s, req, upload, save);
      && (h.reply.status == 200 <==> PostUploads(req) && upload.Uploaded? && save.Stored?)
      && (h.reply.status != 200 ==> h.after.docs == s.docs && h.after.nextId == s.nextId)
      && (h.reply.status == 200 ==>
            var r := Experience(req.name, req.subject, Some(upload.upload.secureUrl), req.verified == Text("true"));
            && s.nextId !in s.docs && h.after.docs == s.docs[s.nextId := r]
            && h.reply.data == Some(Saved(s.nextId, r)))
  {
  }

  lemma PostKeepsIssued(s: Store, req: PostRequest, upload: UploadOutcome, save: StoreOutcome)
    requires Issued(s)
    ensures Issued(PostEffect(s, req, upload, save).after)
  {
    var h := PostEffect(s, req, upload, save);
    forall k | k in h.after.docs ensures k < h.after.nextId {
      if k != s.nextId { assert k in s.docs; }
    }
  }

  /**
   * From consistent stores and a fresh upload the route can find again, POST
   * ends consistent unless the save after the upload fails.
   */
  lemma PostLedger(s: Store, req: PostRequest, upload: UploadOutcome, save: StoreOutcome)
    requires Issued(s) && Consistent(s)
    requires upload.Uploaded? ==> FreshLocated(upload.upload, s.blobs)
    ensures Consistent(PostEffect(s, req, upload, save).after)
      <==> !(PostUploads(req) && upload.Uploaded? && save.StoreFailed?)
  {
    if PostUploads(req) && upload.Uploaded? {
      var u := upload.upload;
      if save.StoreFailed? {
        BlobLedger.FreshOrphanBreaks(s.docs, s.blobs, ExperienceRef, u.publicId);
      } else {
        var r := Experience(req.name, req.subject, Some(u.secureUrl), ParseVerified(req.verified));
        LocatedIsNamed(r, u);
        BlobLedger.InsertKeeps(s.docs, s.blobs, ExperienceRef, s.nextId, r);
      }
    }
  }

  // ---------------------------------------------------------------- PUT

  /** A multipart PUT; `image` is a file, a URL string, or missing. */
  datatype PutRequest = PutRequest(parsed: bool, id: Option<Id>, name: string, subject: string,
                                   verified: FormValue, image: FormValue)

  /** `imageUrl = image` for a value that is not a file; a missing field is stored as null. */
  function ImageText(v: FormValue): (r: Option<string>)
    requires !v.Attached?
    ensures v.Missing? <==> r.None?
    ensures v.Text? ==> r == Some(v.text)
  {
    if v.Text? then Some(v.text) else None
  }

  /**
   * PUT: with a file, its type is checked, the old image is deleted (a
   * failure aborts), and then the new one is uploaded; the write fails for a
   * missing or unknown id.
   */
  function PutEffect(s: Store, req: PutRequest, destroyOk: bool, upload: UploadOutcome, update: StoreOutcome)
    : (h: Handled<Saved<Experience>, Experience>)
    ensures h.after.docs.Keys == s.docs.Keys && h.after.nextId == s.nextId
  {
    if !req.parsed then Failed(UpdateFailedMessage, s)
    else if !req.image.Attached? then PutCommit(s, req, ImageText(req.image), update)
    else if !ImageMime(req.image.file) then Handled(Failure(400, OnlyImagesMessage), s)
    else if req.id.None? then Failed(UpdateFailedMessage, s)
    else
      var prior := OldImage(s, req.id.value);
      if prior.Some? && !destroyOk then Failed(UpdateFailedMessage, s)
      else
        var cleared := if prior.Some? then s.(blobs := s.blobs - {prior.value}) else s;
        match upload
        case UploadFailed(_) => Failed(UpdateFailedMessage, cleared)
        case Uploaded(u) => PutCommit(cleared.(blobs := cleared.blobs + {u.publicId}), req, Some(u.secureUrl), update)
  }

  /** PUT's write: `updateDoc` fails on a missing or unknown id. */
  function PutCommit(s: Store, req: PutRequest, image: Option<string>, update: StoreOutcome)
    : (h: Handled<Saved<Experience>, Experience>)
    ensures h.after.docs.Keys == s.docs.Keys && h.after.nextId == s.nextId && h.after.blobs == s.blobs
  {
    if req.id.None? || req.id.value !in s.docs || update.StoreFailed? then Failed(UpdateFailedMessage, s)
    else
      var id := req.id.value;
      var r := Experience(req.name, req.subject, image, ParseVerified(req.verified));
      Handled(Success(200, Saved(id, r)), s.(docs := s.docs[id := r]))
  }

  /** PUT writes: the id is known, the write succeeds, and with a file the type, the deletion and the upload pass. */
  predicate PutWrites(s: Store, req: PutRequest, destroyOk: bool, upload: UploadOutcome, update: StoreOutcome) {
    && req.parsed && req.id.Some? && req.id.value in s.docs && update.Stored?
    && (req.image.Attached? ==>
          ImageMime(req.image.file) && upload.Uploaded? && (OldImage(s, req.id.value).Some? ==> destroyOk))
  }

  /**
   * PUT writes exactly when `PutWrites` holds, replacing the one record with
   * the submitted fields; without a file the submitted value is stored as it
   * is and the media host is not called.
   */
  lemma PutRewritesOnlyOnSuccess(s: Store, req: PutRequest, destroyOk: bool, upload: UploadOutcome,
                                 update: StoreOutcome)
    ensures var h := PutEffect(s, req, destroyOk, upload, update);
      && (h.reply.status == 200 <==> PutWrites(s, req, destroyOk, upload, update))
      && (h.reply.status != 200 ==> h.after.docs == s.docs)
      && (!req.image.Attached? ==> h.after.blobs == s.blobs)
      && (h.reply.status == 200 ==>
            var id := req.id.value;
            var r := h.after.docs[id];
            && h.after.docs == s.docs[id := r] && h.reply.data == Some(Saved(id, r))
            && r.name == req.name && r.subject == req.subject && r.verified == (req.verified == Text("true"))
            && (req.image.Attached? ==> r.image == Some(upload.upload.secureUrl))
            && (!req.image.Attached? ==> r.image == ImageText(req.image)))
  {
  }

  /**
   * With an accepted file, the old image is deleted before the upload: a
   * failed deletion answers 500 with nothing changed and no upload, and a
   * failed upload after the deletion leaves the record naming a deleted image.
   */
  lemma PutDeletesBeforeUpload(s: Store, req: PutRequest, destroyOk: bool, upload: UploadOutcome,
                               update: StoreOutcome, upload': UploadOutcome, update': StoreOutcome)
    requires req.parsed && req.image.Attached? && ImageMime(req.image.file) && req.id.Some?
    ensures var h := PutEffect(s, req, destroyOk, upload, update);
      var prior := OldImage(s, req.id.value);
      && (prior.Some? && !destroyOk ==>
            h == PutEffect(s, req, destroyOk, upload', update') && h.reply.status == 500 && h.after == s)
      && (prior.Some? && destroyOk && upload.UploadFailed? ==>
            h.reply.status == 500 && h.after == s.(blobs := s.blobs - {prior.value}))
      && (prior.Some? && destroyOk && upload.Uploaded? ==>
            h.after.blobs == s.blobs - {prior.value} + {upload.upload.publicId})
  {
  }

  /**
   * From consistent stores and a fresh upload the route can find again, a
   * PUT with a file on a known id ends consistent exactly when it writes or
   * when it stops before deleting anything.
   */
  lemma PutLedger(s: Store, req: PutRequest, destroyOk: bool, upload: UploadOutcome, update: StoreOutcome)
    requires Consistent(s) && req.parsed && req.image.Attached? && ImageMime(req.image.file)
    requires req.id.Some? && req.id.value in s.docs
    requires upload.Uploaded? ==> FreshLocated(upload.upload, s.blobs)
    ensures var h := PutEffect(s, req, destroyOk, upload, update);
      var prior := OldImage(s, req.id.value);
      Consistent(h.after) <==>
        h.reply.status == 200 || (prior.Some? && !destroyOk) || (prior.None? && upload.UploadFailed?)
  {
    PutRewritesOnlyOnSuccess(s, req, destroyOk, upload, update);
    var h := PutEffect(s, req, destroyOk, upload, update);
    var id := req.id.value;
    var prior := OldImage(s, id);
    var cleared := if prior.Some? && destroyOk then s.blobs - {prior.value} else s.blobs;
    if prior.Some? && !destroyOk {
    } else if upload.UploadFailed? {
      if prior.Some? {
        BlobLedger.DanglingBreaks(s.docs, cleared, ExperienceRef, id);
      }
    } else {
      var u := upload.upload;
      if h.reply.status == 200 {
        var r := h.after.docs[id];
        LocatedIsNamed(r, u);
        BlobLedger.ReplaceKeeps(s.docs, s.blobs, ExperienceRef, id, r);
      } else {
        BlobLedger.FreshIsUnnamed(s.docs, s.blobs, ExperienceRef, u.publicId);
        BlobLedger.OrphanBreaks(s.docs, cleared + {u.publicId}, ExperienceRef, u.publicId);
      }
    }
  }

  // ---------------------------------------------------------------- DELETE

  /** A JSON DELETE body; `parsed` is false when it is not JSON. */
  datatype DeleteRequest = DeleteRequest(parsed: bool, id: Option<Id>)

  /**
   * DELETE: the image is deleted first, and a failure there aborts; then the
   * record. There is no not-found reply.
   */
  function DeleteEffect(s: Store, req: DeleteRequest, destroyOk: bool, removal: StoreOutcome)
    : (h: Handled<(), Experience>)
    ensures h.after.nextId == s.nextId && h.after.docs.Keys <= s.docs.Keys
  {
    if !req.parsed || req.id.None? then Failed(DeleteFailedMessage, s)
    else
      var id := req.id.value;
      var prior := OldImage(s, id);
      if prior.Some? && !destroyOk then Failed(DeleteFailedMessage, s)
      else
        var cleared := if prior.Some? then s.blobs - {prior.value} else s.blobs;
        match removal
        case StoreFailed(_) => Failed(DeleteFailedMessage, s.(blobs := cleared))
        case Stored => Handled(Reply(200, Some(true), None, None), s.(docs := s.docs - {id}, blobs := cleared))
  }

  /** An unknown id answers 200 and changes nothing; a failed image deletion leaves the record. */
  lemma DeleteHasNoNotFound(s: Store, req: DeleteRequest, destroyOk: bool, removal: StoreOutcome)
    requires req.parsed && req.id.Some?
    ensures var h := DeleteEffect(s, req, destroyOk, removal);
      var id := req.id.value;
      && (id !in s.docs && removal.Stored? ==> h.reply.status == 200 && h.after == s)
      && (OldImage(s, id).Some? && !destroyOk ==> h.reply == Failure(500, DeleteFailedMessage) && h.after == s)
      && (h.reply.status == 200 <==> removal.Stored? && (OldImage(s, id).Some? ==> destroyOk))
      && (h.reply.status == 200 ==> h.after.docs == s.docs - {id})
  {
  }

  /**
   * On consistent stores DELETE ends consistent except when the image was
   * deleted and the record's deletion then failed.
   */
  lemma DeleteLedger(s: Store, req: DeleteRequest, destroyOk: bool, removal: StoreOutcome)
    requires Consistent(s)
    ensures var h := DeleteEffect(s, req, destroyOk, removal);
      Consistent(h.after) <==>
        !(req.parsed && req.id.Some? && OldImage(s, req.id.value).Some? && destroyOk && removal.StoreFailed?)
  {
    if req.parsed && req.id.Some? {
      var k := req.id.value;
      var prior := OldImage(s, k);
      if k in s.docs {
        BlobLedger.RemoveKeeps(s.docs, s.blobs, ExperienceRef, k);
        if prior.Some? && destroyOk && removal.StoreFailed? {
          BlobLedger.DanglingBreaks(s.docs, s.blobs - {prior.value}, ExperienceRef, k);
        }
      } else {
        assert s.docs - {k} == s.docs;
      }
    }
  }

  // ---------------------------------------------------------------- the route

  /** The `experiences` collection and the media host as the route handlers see them. */
  class Services {
    var experiences: map<Id, Experience>
    var blobs: set<BlobId>
    var nextId: Id

    function State(): Store
      reads this
    {
      Stores(experiences, blobs, nextId)
    }

    constructor ()
      ensures State() == Stores(map[], {}, 0) && Issued(State()) && Consistent(State())
    {
      experiences, blobs, nextId := map[], {}, 0;
    }

    method Post(req: PostRequest, upload: UploadOutcome, save: StoreOutcome) returns (resp: Reply<Saved<Experience>>)
      modifies this
      ensures var h := PostEffect(old(State()), req, upload, save);
        resp == h.reply && State() == h.after
    {
      if !req.parsed || !req.image.Attached? {
        return Failure(500, CreateFailedMessage);
      }
      if !ImageMime(req.image.file) {
        return Failure(400, OnlyImagesMessage);
      }
      if upload.UploadFailed? {
        return Failure(500, CreateFailedMessage);
      }
      blobs := blobs + {upload.upload.publicId};
      if save.StoreFailed? {
        return Failure(500, CreateFailedMessage);
      }
      var record := Experience(req.name, req.subject, Some(upload.upload.secureUrl), ParseVerified(req.verified));
      var id := nextId;
      experiences := experiences[id := record];
      nextId := nextId + 1;
      return Success(200, Saved(id, record));
    }

    method Put(req: PutRequest, destroyOk: bool, upload: UploadOutcome, update: StoreOutcome)
      returns (resp: Reply<Saved<Experience>>)
      modifies this
      ensures var h := PutEffect(old(State()), req, destroyOk, upload, update);
        resp == h.reply && State() == h.after
    {
      if !req.parsed {
        return Failure(500, UpdateFailedMessage);
      }
      var imageUrl: Option<string>;
      if req.image.Attached? {
        if !ImageMime(req.image.file) {
          return Failure(400, OnlyImagesMessage);
        }
        if req.id.None? {
          return Failure(500, UpdateFailedMessage);
        }
        var id := req.id.value;
        if id in experiences && ExperienceRef(experiences[id]).Some? {
          if !destroyOk {
            return Failure(500, UpdateFailedMessage);
          }
          blobs := blobs - {ExperienceRef(experiences[id]).value};
        }
        if upload.UploadFailed? {
          return Failure(500, UpdateFailedMessage);
        }
        blobs := blobs + {upload.upload.publicId};
        imageUrl := Some(upload.upload.secureUrl);
      } else {
        imageUrl := ImageText(req.image);
      }
      if req.id.None? || req.id.value !in experiences || update.StoreFailed? {
        return Failure(500, UpdateFailedMessage);
      }
      var id := req.id.value;
      var record := Experience(req.name, req.subject, imageUrl, ParseVerified(req.verified));
      experiences := experiences[id := record];
      return Success(200, Saved(id, record));
    }

    method Delete(req: DeleteRequest, destroyOk: bool, removal: StoreOutcome) returns (resp: Reply<()>)
      modifies this
      ensures var h := DeleteEffect(old(State()), req, destroyOk, removal);
        resp == h.reply && State() == h.after
    {
      if !req.parsed || req.id.None? {
        return Failure(500, DeleteFailedMessage);
      }
      var id := req.id.value;
      var prior := OldImage(State(), id);
      if prior.Some? {
        if !destroyOk {
          return Failure(500, DeleteFailedMessage);
        }
        blobs := blobs - {prior.value};
      }
      assert State() == old(State()).(blobs := if prior.Some? then old(blobs) - {prior.value} else old(blobs));
      if removal.StoreFailed? {
        return Failure(500, DeleteFailedMessage);
      }
      experiences := experiences - {id};
      return Reply(200, Some(true), None, None);
    }
  }
}
