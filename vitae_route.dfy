/**
 * The CV route: POST, PUT and DELETE on the `vitae` collection and the PDF
 * files the media host keeps in its "vitae" folder. Unlike the media route,
 * POST checks the name before uploading, and PUT deletes the old file before
 * the new one is uploaded. A CV names its file by its public id or, for
 * records without one, by the id derived from its URL.
 */
module VitaeRoute {

  import opened Common
  import opened Text
  import opened Records
  import opened MediaHost
  import BlobLedger

  const PdfType := "application/pdf"
  const MaxPdfBytes: nat := 10 * 1024 * 1024
  const NameRequiredMessage := "Le nom est requis"
  const FileRequiredMessage := "Le fichier est requis"
  const PdfOnlyMessage := "Seuls les fichiers PDF de moins de 10MB sont autorisés"
  const NameTakenMessage := "Un CV avec ce nom existe déjà"
  const UploadFailedMessage := "Échec du téléversement du CV"
  const IdRequiredMessage := "L'ID est requis"
  const NotFoundMessage := "CV non trouvé"
  const UpdateFailedMessage := "Échec de la mise à jour du CV"
  const DeleteFailedMessage := "Échec de la suppression du CV"

  /** `validatePDFFile`: the type is tested first, then the size. */
  function ValidatePdfFile(f: FileInfo): (ok: bool)
    ensures ok <==> f.mimeType == PdfType && f.size <= MaxPdfBytes
  {
    if f.mimeType != PdfType then false
    else if f.size > MaxPdfBytes then false
    else true
  }

  /** A form value that passes `validatePDFFile`; a string has no type, so it never does. */
  predicate AcceptedPdf(v: FormValue) {
    v.Attached? && ValidatePdfFile(v.file)
  }

  /**
   * The file the route deletes for a CV: its public id when truthy, otherwise
   * "vitae/" followed by the id extracted from its URL, when that is non-empty.
   */
  function VitaeRef(v: Vitae): (r: Option<BlobId>)
    ensures r.Some? ==> r.value != ""
  {
    if Truthy(v.publicId) then v.publicId
    else if v.file != "" && RawFileStem(v.file) != "" then Some("vitae/" + RawFileStem(v.file))
    else None
  }

  /**
   * For a CV stored without a public id, the derived id is the one the host
   * gave a file uploaded into the "vitae" folder under that file name.
   */
  lemma VitaeRefOfDeliveryUrl(v: Vitae, base: string, name: string, ext: string)
    requires !Truthy(v.publicId) && v.file == DeliveryUrl(base, name, ext)
    requires name != "" && '/' !in name && '.' !in name && ',' !in name && '/' !in ext
    ensures VitaeRef(v) == Some("vitae/" + name)
  {
    RawFileStemOfDeliveryUrl(base, name, ext);
  }

  /** The file named by a CV that has a truthy public id is that public id. */
  lemma VitaeRefPrefersPublicId(v: Vitae)
    requires Truthy(v.publicId)
    ensures VitaeRef(v) == v.publicId
  {
  }

  /** The `vitae` collection and the hosted files. */
  type Store = Stores<Vitae>

  ghost predicate Consistent(s: Store) {
    BlobLedger.Consistent(s.docs, s.blobs, VitaeRef)
  }

  /** The name query `where("name", "==", name)`, ignoring the record `excludeId`. */
  predicate NameInUse(docs: map<Id, Vitae>, name: string, excludeId: Option<Id>) {
    exists k :: k in docs && docs[k].name == name && Some(k) != excludeId
  }

  /** No two CVs share a name. */
  ghost predicate UniqueNames(docs: map<Id, Vitae>) {
    forall j, k :: j in docs && k in docs && j != k ==> docs[j].name != docs[k].name
  }

  /** The blob store after the best-effort deletion of the file a CV names, if any. */
  function WithoutFileOf(blobs: set<BlobId>, v: Vitae, ok: bool): (r: set<BlobId>)
    ensures r <= blobs
    ensures VitaeRef(v).None? || !ok ==> r == blobs
    ensures VitaeRef(v).Some? && ok ==> r == blobs - {VitaeRef(v).value}
  {
    if VitaeRef(v).Some? then Destroyed(blobs, VitaeRef(v).value, ok) else blobs
  }

  // ---------------------------------------------------------------- POST

  /** A multipart POST; `parsed` is false when the body is not a form. */
  datatype PostRequest = PostRequest(parsed: bool, name: string, file: FormValue)

  /** The checks POST makes before any call, in order; `None` lets the request through. */
  function PostPrecheck(req: PostRequest): (e: Option<string>)
    ensures e.None? <==> Trim(req.name) != "" && AcceptedPdf(req.file)
    ensures Trim(req.name) == "" ==> e == Some(NameRequiredMessage)
    ensures Trim(req.name) != "" && !FormTruthy(req.file) ==> e == Some(FileRequiredMessage)
    ensures Trim(req.name) != "" && FormTruthy(req.file) && !AcceptedPdf(req.file) ==> e == Some(PdfOnlyMessage)
  {
    if Trim(req.name) == "" then Some(NameRequiredMessage)
    else if !FormTruthy(req.file) then Some(FileRequiredMessage)
    else if !AcceptedPdf(req.file) then Some(PdfOnlyMessage)
    else None
  }

  /** The record POST stores for an uploaded file. */
  function NewVitae(name: string, u: Upload, now: Timestamp): Vitae {
    Vitae(name, u.secureUrl, Some(u.publicId), Some(now), Some(now))
  }

  /**
   * POST: the checks, the name query, then the upload and the save. A
   * failed save leaves the upload in place.
   */
  function PostEffect(s: Store, req: PostRequest, nameQuery: QueryOutcome, upload: UploadOutcome,
                      save: StoreOutcome, now: Timestamp): (h: Handled<Saved<Vitae>, Vitae>)
    ensures h.after.nextId >= s.nextId
  {
    if !req.parsed then Handled(Failure(500, UploadFailedMessage), s)
    else match PostPrecheck(req)
    case Some(e) => Handled(Failure(400, e), s)
    case None =>
      if nameQuery.QueryFailed? then Handled(Failure(500, UploadFailedMessage), s)
      else if NameInUse(s.docs, Trim(req.name), None) then Handled(Failure(400, NameTakenMessage), s)
      else match upload
      case UploadFailed(_) => Handled(Failure(500, UploadFailedMessage), s)
      case Uploaded(u) => PostCommit(s, Trim(req.name), u, save, now)
  }

  /** POST once the file is hosted. */
  function PostCommit(s: Store, name: string, u: Upload, save: StoreOutcome, now: Timestamp)
    : (h: Handled<Saved<Vitae>, Vitae>)
    ensures h.after.nextId >= s.nextId
  {
    var uploaded := s.blobs + {u.publicId};
    match save
    case StoreFailed(_) => Handled(Failure(500, UploadFailedMessage), s.(blobs := uploaded))
    case Stored =>
      var r := NewVitae(name, u, now);
      Handled(Success(201, Saved(s.nextId, r)), Stores(s.docs[s.nextId := r], uploaded, s.nextId + 1))
  }

  /** POST reaches the name query: the body parsed and the checks passed. */
  predicate PostQueries(req: PostRequest) {
    req.parsed && PostPrecheck(req).None?
  }

  /** POST reaches the upload: the query answered and found no CV with that name. */
  predicate PostUploads(s: Store, req: PostRequest, nameQuery: QueryOutcome) {
    PostQueries(req) && nameQuery.Answered? && !NameInUse(s.docs, Trim(req.name), None)
  }

  /**
   * A request the checks refuse is answered before any call: the reply and
   * the stores depend on none of the outcomes of the query, the upload or the
   * save, and the stores are untouched.
   */
  lemma PostChecksBeforeAnyCall(s: Store, req: PostRequest, nameQuery: QueryOutcome, upload: UploadOutcome,
                                save: StoreOutcome, now: Timestamp,
                                nameQuery': QueryOutcome, upload': UploadOutcome, save': StoreOutcome, now': Timestamp)
    requires !PostQueries(req)
    ensures var h := PostEffect(s, req, nameQuery, upload, save, now);
      && h == PostEffect(s, req, nameQuery', upload', save', now')
      && h.after == s
      && h.reply == if !req.parsed then Failure(500, UploadFailedMessage) else Failure(400, PostPrecheck(req).value)
  {
  }

  /**
   * A name some CV already has is refused with 400 before the upload: no
   * file is created, and the reply depends on neither the upload nor the save.
   */
  lemma PostNameTakenCreatesNoFile(s: Store, req: PostRequest, upload: UploadOutcome, save: StoreOutcome,
                                   now: Timestamp, upload': UploadOutcome, save': StoreOutcome, now': Timestamp)
    requires PostQueries(req) && NameInUse(s.docs, Trim(req.name), None)
    ensures var h := PostEffect(s, req, Answered, upload, save, now);
      && h == PostEffect(s, req, Answered, upload', save', now')
      && h.reply == Failure(400, NameTakenMessage) && h.after == s
  {
  }

  /**
   * A record is inserted exactly when the checks pass, the query finds the
   * name free, the upload succeeds and the save succeeds; it is then the one
   * new record, under a fresh identifier, with the trimmed name and the
   * upload's URL and public id, and the reply is 201 with it.
   */
  lemma PostInsertsOnlyOnSuccess(s: Store, req: PostRequest, nameQuery: QueryOutcome, upload: UploadOutcome,
                                 save: StoreOutcome, now: Timestamp)
    requires Issued(s)
    ensures var h := PostEffect(s, req, nameQuery, upload, save, now);
      && (h.reply.status == 201 <==> PostUploads(s, req, nameQuery) && upload.Uploaded? && save.Stored?)
      && (h.reply.status != 201 ==> h.after.docs == s.docs && h.after.nextId == s.nextId)
      && (h.reply.status == 201 ==>
            var r := NewVitae(Trim(req.name), upload.upload, now);
            && s.nextId !in s.docs && h.after.docs == s.docs[s.nextId := r]
            && h.reply.data == Some(Saved(s.nextId, r))
            && r.file == upload.upload.secureUrl && r.publicId == Some(upload.upload.publicId))
  {
    if PostUploads(s, req, nameQuery) && upload.Uploaded? {
      assert PostEffect(s, req, nameQuery, upload, save, now) == PostCommit(s, Trim(req.name), upload.upload, save, now);
    } else if !PostQueries(req) {
      PostChecksBeforeAnyCall(s, req, nameQuery, upload, save, now, nameQuery, upload, save, now);
    }
  }

  /** POST hands out identifiers in order, so an identifier is never reused. */
  lemma PostKeepsIssued(s: Store, req: PostRequest, nameQuery: QueryOutcome, upload: UploadOutcome,
                        save: StoreOutcome, now: Timestamp)
    requires Issued(s)
    ensures Issued(PostEffect(s, req, nameQuery, upload, save, now).after)
  {
    var h := PostEffect(s, req, nameQuery, upload, save, now);
    forall k | k in h.after.docs ensures k < h.after.nextId {
      if k != s.nextId { assert k in s.docs; }
    }
  }

  /** Because the name is checked against the collection first, POST keeps the names distinct. */
  lemma PostKeepsNamesUnique(s: Store, req: PostRequest, nameQuery: QueryOutcome, upload: UploadOutcome,
                             save: StoreOutcome, now: Timestamp)
    requires Issued(s) && UniqueNames(s.docs)
    ensures UniqueNames(PostEffect(s, req, nameQuery, upload, save, now).after.docs)
  {
    PostInsertsOnlyOnSuccess(s, req, nameQuery, upload, save, now);
    var h := PostEffect(s, req, nameQuery, upload, save, now);
    if h.reply.status == 201 {
      var d := h.after.docs;
      forall j, k | j in d && k in d && j != k ensures d[j].name != d[k].name {
        if j != s.nextId && k != s.nextId {
          assert d[j] == s.docs[j] && d[k] == s.docs[k];
        } else if j == s.nextId {
          assert k in s.docs && d[k] == s.docs[k];
        } else {
          assert j in s.docs && d[j] == s.docs[j];
        }
      }
    }
  }

  /**
   * From consistent stores and a fresh upload, POST ends consistent unless
   * the save after the upload fails: the file then stays hosted with no
   * record naming it. No other path touches the hosted files.
   */
  lemma PostLedger(s: Store, req: PostRequest, nameQuery: QueryOutcome, upload: UploadOutcome,
                   save: StoreOutcome, now: Timestamp)
    requires Issued(s) && Consistent(s)
    requires upload.Uploaded? ==> FreshBlob(upload.upload.publicId, s.blobs)
    ensures Consistent(PostEffect(s, req, nameQuery, upload, save, now).after)
      <==> !(PostUploads(s, req, nameQuery) && upload.Uploaded? && save.StoreFailed?)
  {
    if PostUploads(s, req, nameQuery) && upload.Uploaded? {
      var p := upload.upload.publicId;
      if save.StoreFailed? {
        BlobLedger.FreshIsUnnamed(s.docs, s.blobs, VitaeRef, p);
        BlobLedger.OrphanBreaks(s.docs, s.blobs + {p}, VitaeRef, p);
      } else {
        BlobLedger.InsertKeeps(s.docs, s.blobs, VitaeRef, s.nextId, NewVitae(Trim(req.name), upload.upload, now));
      }
    }
  }

  // ---------------------------------------------------------------- PUT

  /** A multipart PUT; `parsed` is false when the body is not a form. */
  datatype PutRequest = PutRequest(parsed: bool, id: Option<Id>, name: string, file: FormValue)

  /** The request names an existing CV and a non-blank name. */
  predicate PutAdmitted(s: Store, req: PutRequest) {
    req.parsed && req.id.Some? && Trim(req.name) != "" && req.id.value in s.docs
  }

  /**
   * PUT: the checks and the lookup, then (with a file) the validation, the
   * deletion of the old file and the upload, then the name check and the write.
   */
  function PutEffect(s: Store, req: PutRequest, oldDeleteOk: bool, upload: UploadOutcome, nameQuery: QueryOutcome,
                     update: StoreOutcome, now: Timestamp): (h: Handled<Saved<Vitae>, Vitae>)
    ensures h.after.docs.Keys == s.docs.Keys && h.after.nextId == s.nextId
  {
    if !req.parsed then Handled(Failure(500, UpdateFailedMessage), s)
    else if req.id.None? then Handled(Failure(400, IdRequiredMessage), s)
    else if Trim(req.name) == "" then Handled(Failure(400, NameRequiredMessage), s)
    else if req.id.value !in s.docs then Handled(Failure(404, NotFoundMessage), s)
    else PutFound(s, req.id.value, Trim(req.name), req.file, oldDeleteOk, upload, nameQuery, update, now)
  }

  /** PUT on an existing CV. */
  function PutFound(s: Store, id: Id, name: string, file: FormValue, oldDeleteOk: bool, upload: UploadOutcome,
                    nameQuery: QueryOutcome, update: StoreOutcome, now: Timestamp): (h: Handled<Saved<Vitae>, Vitae>)
    requires id in s.docs
    ensures h.after.docs.Keys == s.docs.Keys && h.after.nextId == s.nextId
  {
    var existing := s.docs[id];
    if !FormTruthy(file) then PutCommit(s, id, name, existing.file, existing.publicId, nameQuery, update, now)
    else if !AcceptedPdf(file) then Handled(Failure(400, PdfOnlyMessage), s)
    else
      var cleared := s.(blobs := WithoutFileOf(s.blobs, existing, oldDeleteOk));
      match upload
      case UploadFailed(_) => Handled(Failure(500, UpdateFailedMessage), cleared)
      case Uploaded(u) =>
        PutCommit(cleared.(blobs := cleared.blobs + {u.publicId}), id, name, u.secureUrl, Some(u.publicId),
                  nameQuery, update, now)
  }

  /** PUT's last step: the name check when the name changes, then the write. */
  function PutCommit(s: Store, id: Id, name: string, file: string, publicId: Option<BlobId>,
                     nameQuery: QueryOutcome, update: StoreOutcome, now: Timestamp): (h: Handled<Saved<Vitae>, Vitae>)
    requires id in s.docs
    ensures h.after.docs.Keys == s.docs.Keys && h.after.nextId == s.nextId && h.after.blobs == s.blobs
  {
    var renamed := name != s.docs[id].name;
    if renamed && nameQuery.QueryFailed? then Handled(Failure(500, UpdateFailedMessage), s)
    else if renamed && NameInUse(s.docs, name, Some(id)) then Handled(Failure(400, NameTakenMessage), s)
    else if update.StoreFailed? then Handled(Failure(500, UpdateFailedMessage), s)
    else
      var r := Vitae(name, file, publicId, s.docs[id].createdAt, Some(now));
      Handled(Success(200, Saved(id, r)), s.(docs := s.docs[id := r]))
  }

  /** PUT writes the record when the name is unchanged or free among the other CVs, and the write succeeds. */
  predicate PutWrites(s: Store, id: Id, name: string, nameQuery: QueryOutcome, update: StoreOutcome)
    requires id in s.docs
  {
    && (name != s.docs[id].name ==> nameQuery.Answered? && !NameInUse(s.docs, name, Some(id)))
    && update.Stored?
  }

  /**
   * A request without an id or without a name, or for an unknown id, is
   * refused before any call: its reply and stores depend on none of the
   * outcomes, and the stores are untouched.
   */
  lemma PutRefusals(s: Store, req: PutRequest, oldDeleteOk: bool, upload: UploadOutcome, nameQuery: QueryOutcome,
                    update: StoreOutcome, now: Timestamp,
                    oldDeleteOk': bool, upload': UploadOutcome, nameQuery': QueryOutcome, update': StoreOutcome,
                    now': Timestamp)
    requires !PutAdmitted(s, req)
    ensures var h := PutEffect(s, req, oldDeleteOk, upload, nameQuery, update, now);
      && h == PutEffect(s, req, oldDeleteOk', upload', nameQuery', update', now')
      && h.after == s
      && (!req.parsed ==> h.reply == Failure(500, UpdateFailedMessage))
      && (req.parsed && req.id.None? ==> h.reply == Failure(400, IdRequiredMessage))
      && (req.parsed && req.id.Some? && Trim(req.name) == "" ==> h.reply == Failure(400, NameRequiredMessage))
      && (req.parsed && req.id.Some? && Trim(req.name) != "" ==> h.reply == Failure(404, NotFoundMessage))
  {
  }

  /** PUT's last step writes exactly when the name check and the write allow it, and otherwise changes nothing. */
  lemma PutCommitWrites(s: Store, id: Id, name: string, file: string, publicId: Option<BlobId>,
                        nameQuery: QueryOutcome, update: StoreOutcome, now: Timestamp)
    requires id in s.docs
    ensures var h := PutCommit(s, id, name, file, publicId, nameQuery, update, now);
      && (h.reply.status == 200 <==> PutWrites(s, id, name, nameQuery, update))
      && (h.reply.status != 200 ==> h.after == s)
      && ((nameQuery.Answered? && name != s.docs[id].name && NameInUse(s.docs, name, Some(id)))
            ==> h.reply == Failure(400, NameTakenMessage))
      && (h.reply.status == 200 ==>
            var r := Vitae(name, file, publicId, s.docs[id].createdAt, Some(now));
            h.after == s.(docs := s.docs[id := r]) && h.reply.data == Some(Saved(id, r)))
  {
  }

  /**
   * Without a file, PUT touches no hosted file, keeps the stored URL and
   * public id, and writes exactly when the name check and the write allow it.
   */
  lemma PutWithoutFileKeepsFile(s: Store, req: PutRequest, oldDeleteOk: bool, upload: UploadOutcome,
                                nameQuery: QueryOutcome, update: StoreOutcome, now: Timestamp)
    requires PutAdmitted(s, req) && !FormTruthy(req.file)
    ensures var h := PutEffect(s, req, oldDeleteOk, upload, nameQuery, update, now);
      var id := req.id.value;
      && h.after.blobs == s.blobs
      && (h.reply.status == 200 <==> PutWrites(s, id, Trim(req.name), nameQuery, update))
      && (h.reply.status != 200 ==> h.after == s)
      && (h.reply.status == 200 ==>
            var r := h.after.docs[id];
            && h.after.docs == s.docs[id := r] && h.reply.data == Some(Saved(id, r))
            && r.name == Trim(req.name) && r.file == s.docs[id].file && r.publicId == s.docs[id].publicId)
  {
    var id := req.id.value;
    var existing := s.docs[id];
    assert PutEffect(s, req, oldDeleteOk, upload, nameQuery, update, now)
      == PutCommit(s, id, Trim(req.name), existing.file, existing.publicId, nameQuery, update, now);
    PutCommitWrites(s, id, Trim(req.name), existing.file, existing.publicId, nameQuery, update, now);
  }

  /**
   * With an accepted file, the old file is deleted before the upload: when
   * the upload then fails, the record is unchanged but its old file is gone.
   * After a successful upload a name conflict answers 400 and keeps the new
   * upload, and a successful write stores the new URL and public id.
   */
  lemma PutDeletesBeforeUpload(s: Store, req: PutRequest, oldDeleteOk: bool, upload: UploadOutcome,
                               nameQuery: QueryOutcome, update: StoreOutcome, now: Timestamp)
    requires PutAdmitted(s, req) && AcceptedPdf(req.file)
    ensures var h := PutEffect(s, req, oldDeleteOk, upload, nameQuery, update, now);
      var id := req.id.value;
      var cleared := WithoutFileOf(s.blobs, s.docs[id], oldDeleteOk);
      && (upload.UploadFailed? ==>
            h.reply == Failure(500, UpdateFailedMessage) && h.after == s.(blobs := cleared))
      && (upload.Uploaded? ==>
            && h.after.blobs == cleared + {upload.upload.publicId}
            && (h.reply.status == 200 <==> PutWrites(s, id, Trim(req.name), nameQuery, update))
            && (h.reply.status != 200 ==> h.after.docs == s.docs)
            && ((nameQuery.Answered? && Trim(req.name) != s.docs[id].name && NameInUse(s.docs, Trim(req.name), Some(id)))
                  ==> h.reply == Failure(400, NameTakenMessage))
            && (h.reply.status == 200 ==>
                  var r := h.after.docs[id];
                  && h.after.docs == s.docs[id := r] && r.name == Trim(req.name)
                  && r.file == upload.upload.secureUrl && r.publicId == Some(upload.upload.publicId)))
  {
    var id := req.id.value;
    var cleared := s.(blobs := WithoutFileOf(s.blobs, s.docs[id], oldDeleteOk));
    assert FormTruthy(req.file);
    assert PutEffect(s, req, oldDeleteOk, upload, nameQuery, update, now)
      == PutFound(s, id, Trim(req.name), req.file, oldDeleteOk, upload, nameQuery, update, now);
    if upload.UploadFailed? {
      assert PutFound(s, id, Trim(req.name), req.file, oldDeleteOk, upload, nameQuery, update, now)
        == Handled(Failure(500, UpdateFailedMessage), cleared);
    } else {
      var u := upload.upload;
      var hosted := cleared.(blobs := cleared.blobs + {u.publicId});
      assert PutFound(s, id, Trim(req.name), req.file, oldDeleteOk, upload, nameQuery, update, now)
        == PutCommit(hosted, id, Trim(req.name), u.secureUrl, Some(u.publicId), nameQuery, update, now);
      PutCommitWrites(hosted, id, Trim(req.name), u.secureUrl, Some(u.publicId), nameQuery, update, now);
    }
  }

  /** PUT checks a changed name against the other CVs, so it keeps the names distinct. */
  lemma PutKeepsNamesUnique(s: Store, req: PutRequest, oldDeleteOk: bool, upload: UploadOutcome,
                            nameQuery: QueryOutcome, update: StoreOutcome, now: Timestamp)
    requires UniqueNames(s.docs)
    ensures UniqueNames(PutEffect(s, req, oldDeleteOk, upload, nameQuery, update, now).after.docs)
  {
    if PutAdmitted(s, req) && FormTruthy(req.file) && AcceptedPdf(req.file) && upload.Uploaded? {
      var id := req.id.value;
      var u := upload.upload;
      var cleared := s.(blobs := WithoutFileOf(s.blobs, s.docs[id], oldDeleteOk));
      var hosted := cleared.(blobs := cleared.blobs + {u.publicId});
      assert PutEffect(s, req, oldDeleteOk, upload, nameQuery, update, now)
        == PutCommit(hosted, id, Trim(req.name), u.secureUrl, Some(u.publicId), nameQuery, update, now);
      PutCommitKeepsNamesUnique(hosted, id, Trim(req.name), u.secureUrl, Some(u.publicId), nameQuery, update, now);
    } else if PutAdmitted(s, req) && !FormTruthy(req.file) {
      var id := req.id.value;
      var existing := s.docs[id];
      assert PutEffect(s, req, oldDeleteOk, upload, nameQuery, update, now)
        == PutCommit(s, id, Trim(req.name), existing.file, existing.publicId, nameQuery, update, now);
      PutCommitKeepsNamesUnique(s, id, Trim(req.name), existing.file, existing.publicId, nameQuery, update, now);
    } else {
      assert PutEffect(s, req, oldDeleteOk, upload, nameQuery, update, now).after.docs == s.docs;
    }
  }

  /** The write happens only when the new name is the old one or free among the other CVs. */
  lemma PutCommitKeepsNamesUnique(s: Store, id: Id, name: string, file: string, publicId: Option<BlobId>,
                                  nameQuery: QueryOutcome, update: StoreOutcome, now: Timestamp)
    requires id in s.docs && UniqueNames(s.docs)
    ensures UniqueNames(PutCommit(s, id, name, file, publicId, nameQuery, update, now).after.docs)
  {
    PutCommitWrites(s, id, name, file, publicId, nameQuery, update, now);
    var h := PutCommit(s, id, name, file, publicId, nameQuery, update, now);
    if h.reply.status == 200 {
      var d := h.after.docs;
      forall j, k | j in d && k in d && j != k ensures d[j].name != d[k].name {
        if j != id && k != id {
          assert d[j] == s.docs[j] && d[k] == s.docs[k];
        } else if j == id {
          assert d[k] == s.docs[k];
        } else {
          assert d[j] == s.docs[j];
        }
      }
    }
  }

  /** Without a file, PUT keeps consistent stores consistent: the record still names the same file. */
  lemma PutWithoutFileLedger(s: Store, req: PutRequest, oldDeleteOk: bool, upload: UploadOutcome,
                             nameQuery: QueryOutcome, update: StoreOutcome, now: Timestamp)
    requires Consistent(s) && PutAdmitted(s, req) && !FormTruthy(req.file)
    ensures Consistent(PutEffect(s, req, oldDeleteOk, upload, nameQuery, update, now).after)
  {
    PutWithoutFileKeepsFile(s, req, oldDeleteOk, upload, nameQuery, update, now);
    var h := PutEffect(s, req, oldDeleteOk, upload, nameQuery, update, now);
    if h.reply.status == 200 {
      var id := req.id.value;
      assert VitaeRef(h.after.docs[id]) == VitaeRef(s.docs[id]);
      BlobLedger.SameRefKeeps(s.docs, s.blobs, VitaeRef, id, h.after.docs[id]);
    }
  }

  /**
   * With an accepted file and a fresh upload, from consistent stores: a
   * failed upload stays consistent exactly when the old file was not
   * deleted (or there was none) — otherwise the record names a deleted file;
   * a write stays consistent exactly when the old file was deleted (or there
   * was none); every other reply leaves the new upload orphaned.
   */
  lemma PutLedger(s: Store, req: PutRequest, oldDeleteOk: bool, upload: UploadOutcome,
                  nameQuery: QueryOutcome, update: StoreOutcome, now: Timestamp)
    requires Consistent(s) && PutAdmitted(s, req) && AcceptedPdf(req.file)
    requires upload.Uploaded? ==> FreshBlob(upload.upload.publicId, s.blobs)
    ensures var h := PutEffect(s, req, oldDeleteOk, upload, nameQuery, update, now);
      var named := VitaeRef(s.docs[req.id.value]);
      && (upload.UploadFailed? ==> (Consistent(h.after) <==> named.None? || !oldDeleteOk))
      && (upload.Uploaded? && h.reply.status == 200 ==> (Consistent(h.after) <==> named.None? || oldDeleteOk))
      && (upload.Uploaded? && h.reply.status != 200 ==> !Consistent(h.after))
  {
    PutDeletesBeforeUpload(s, req, oldDeleteOk, upload, nameQuery, update, now);
    var h := PutEffect(s, req, oldDeleteOk, upload, nameQuery, update, now);
    var id := req.id.value;
    var named := VitaeRef(s.docs[id]);
    var cleared := WithoutFileOf(s.blobs, s.docs[id], oldDeleteOk);
    if upload.UploadFailed? {
      if named.Some? && oldDeleteOk {
        BlobLedger.DanglingBreaks(s.docs, cleared, VitaeRef, id);
      }
    } else {
      var p := upload.upload.publicId;
      BlobLedger.FreshIsUnnamed(s.docs, s.blobs, VitaeRef, p);
      if h.reply.status == 200 {
        ReplacementLedger(s, id, h.after.docs[id], oldDeleteOk);
      } else {
        BlobLedger.OrphanBreaks(s.docs, cleared + {p}, VitaeRef, p);
      }
    }
  }

  lemma ReplacementLedger(s: Store, id: Id, r: Vitae, oldDeleteOk: bool)
    requires Consistent(s) && id in s.docs && r.publicId.Some? && FreshBlob(r.publicId.value, s.blobs)
    ensures var after := WithoutFileOf(s.blobs, s.docs[id], oldDeleteOk) + {r.publicId.value};
      BlobLedger.Consistent(s.docs[id := r], after, VitaeRef) <==> VitaeRef(s.docs[id]).None? || oldDeleteOk
  {
    var p := r.publicId.value;
    var after := WithoutFileOf(s.blobs, s.docs[id], oldDeleteOk) + {p};
    assert VitaeRef(r) == Some(p);
    BlobLedger.ReplaceKeeps(s.docs, s.blobs, VitaeRef, id, r);
    if VitaeRef(s.docs[id]).Some? {
      var o := VitaeRef(s.docs[id]).value;
      BlobLedger.RefsMember(s.docs, VitaeRef, id);
      if !oldDeleteOk {
        BlobLedger.RenamedIsUnnamed(s.docs, s.blobs, VitaeRef, id, r);
        BlobLedger.OrphanBreaks(s.docs[id := r], after, VitaeRef, o);
      }
    }
  }

  // ---------------------------------------------------------------- DELETE

  /** A JSON DELETE body; `parsed` is false when it is not JSON. */
  datatype DeleteRequest = DeleteRequest(parsed: bool, id: Option<Id>)

  /** DELETE: the file is deleted first, best effort, then the record. */
  function DeleteEffect(s: Store, req: DeleteRequest, blobDeleteOk: bool, removal: StoreOutcome)
    : (h: Handled<(), Vitae>)
    ensures h.after.nextId == s.nextId && h.after.docs.Keys <= s.docs.Keys
  {
    if !req.parsed then Handled(Failure(500, DeleteFailedMessage), s)
    else if req.id.None? then Handled(Failure(400, IdRequiredMessage), s)
    else if req.id.value !in s.docs then Handled(Failure(404, NotFoundMessage), s)
    else
      var id := req.id.value;
      var cleared := WithoutFileOf(s.blobs, s.docs[id], blobDeleteOk);
      match removal
      case StoreFailed(_) => Handled(Failure(500, DeleteFailedMessage), s.(blobs := cleared))
      case Stored => Handled(Reply(200, Some(true), None, None), s.(docs := s.docs - {id}, blobs := cleared))
  }

  /**
   * An unknown id answers 404 and makes no call. For a known id the failure
   * to delete the file is swallowed: the record is deleted whenever its own
   * deletion succeeds, and the reply is then 200.
   */
  lemma DeleteSwallowsFileErrors(s: Store, req: DeleteRequest, blobDeleteOk: bool, removal: StoreOutcome,
                                 blobDeleteOk': bool, removal': StoreOutcome)
    ensures var h := DeleteEffect(s, req, blobDeleteOk, removal);
      && (req.parsed && req.id.Some? && req.id.value !in s.docs ==>
            h == DeleteEffect(s, req, blobDeleteOk', removal') && h.reply == Failure(404, NotFoundMessage) && h.after == s)
      && (req.parsed && req.id.Some? && req.id.value in s.docs ==>
            var id := req.id.value;
            && h.after.blobs == WithoutFileOf(s.blobs, s.docs[id], blobDeleteOk)
            && (h.reply.status == 200 <==> removal.Stored?)
            && (removal.Stored? ==> h.after.docs == s.docs - {id})
            && (removal.StoreFailed? ==> h.reply == Failure(500, DeleteFailedMessage) && h.after.docs == s.docs))
  {
  }

  /**
   * On consistent stores, deleting a CV that names a file stays consistent
   * exactly when both deletions succeed or both fail; a CV without a file
   * always stays consistent.
   */
  lemma DeleteLedger(s: Store, req: DeleteRequest, blobDeleteOk: bool, removal: StoreOutcome)
    requires Consistent(s)
    ensures var h := DeleteEffect(s, req, blobDeleteOk, removal);
      Consistent(h.after) <==>
        !(req.parsed && req.id.Some? && req.id.value in s.docs)
        || VitaeRef(s.docs[req.id.value]).None? || (removal.Stored? <==> blobDeleteOk)
  {
    if req.parsed && req.id.Some? && req.id.value in s.docs {
      var k := req.id.value;
      var named := VitaeRef(s.docs[k]);
      BlobLedger.RemoveKeeps(s.docs, s.blobs, VitaeRef, k);
      if named.Some? {
        if removal.Stored? && !blobDeleteOk {
          BlobLedger.OrphanBreaks(s.docs - {k}, s.blobs, VitaeRef, named.value);
        } else if removal.StoreFailed? && blobDeleteOk {
          BlobLedger.DanglingBreaks(s.docs, s.blobs - {named.value}, VitaeRef, k);
        }
      }
    }
  }

  // ---------------------------------------------------------------- the route

  /** The `vitae` collection and the media host as the route handlers see them. */
  class Services {
    var vitae: map<Id, Vitae>
    var blobs: set<BlobId>
    var nextId: Id

    function State(): Store
      reads this
    {
      Stores(vitae, blobs, nextId)
    }

    constructor ()
      ensures State() == Stores(map[], {}, 0) && Issued(State()) && Consistent(State()) && UniqueNames(State().docs)
    {
      vitae, blobs, nextId := map[], {}, 0;
    }

    method Post(req: PostRequest, nameQuery: QueryOutcome, upload: UploadOutcome, save: StoreOutcome, now: Timestamp)
      returns (resp: Reply<Saved<Vitae>>)
      modifies this
      ensures var h := PostEffect(old(State()), req, nameQuery, upload, save, now);
        resp == h.reply && State() == h.after
    {
      if !req.parsed {
        return Failure(500, UploadFailedMessage);
      }
      var gate := PostPrecheck(req);
      if gate.Some? {
        return Failure(400, gate.value);
      }
      var name := Trim(req.name);
      if nameQuery.QueryFailed? {
        return Failure(500, UploadFailedMessage);
      }
      if NameInUse(vitae, name, None) {
        return Failure(400, NameTakenMessage);
      }
      if upload.UploadFailed? {
        return Failure(500, UploadFailedMessage);
      }
      resp := CommitUpload(name, upload.upload, save, now);
    }

    /** POST once the file is hosted: save the record. */
    method CommitUpload(name: string, u: Upload, save: StoreOutcome, now: Timestamp) returns (resp: Reply<Saved<Vitae>>)
      modifies this
      ensures var h := PostCommit(old(State()), name, u, save, now);
        resp == h.reply && State() == h.after
    {
      blobs := blobs + {u.publicId};
      if save.StoreFailed? {
        return Failure(500, UploadFailedMessage);
      }
      var record := NewVitae(name, u, now);
      var id := nextId;
      vitae := vitae[id := record];
      nextId := nextId + 1;
      return Success(201, Saved(id, record));
    }

    method Put(req: PutRequest, oldDeleteOk: bool, upload: UploadOutcome, nameQuery: QueryOutcome,
               update: StoreOutcome, now: Timestamp) returns (resp: Reply<Saved<Vitae>>)
      modifies this
      ensures var h := PutEffect(old(State()), req, oldDeleteOk, upload, nameQuery, update, now);
        resp == h.reply && State() == h.after
    {
      if !req.parsed {
        return Failure(500, UpdateFailedMessage);
      }
      if req.id.None? {
        return Failure(400, IdRequiredMessage);
      }
      var name := Trim(req.name);
      if name == "" {
        return Failure(400, NameRequiredMessage);
      }
      var id := req.id.value;
      if id !in vitae {
        return Failure(404, NotFoundMessage);
      }
      resp := EditFound(id, name, req.file, oldDeleteOk, upload, nameQuery, update, now);
    }

    /** PUT on an existing CV: with a file, the validation, the old file's deletion and the upload. */
    method EditFound(id: Id, name: string, file: FormValue, oldDeleteOk: bool, upload: UploadOutcome,
                     nameQuery: QueryOutcome, update: StoreOutcome, now: Timestamp) returns (resp: Reply<Saved<Vitae>>)
      requires id in vitae
      modifies this
      ensures var h := PutFound(old(State()), id, name, file, oldDeleteOk, upload, nameQuery, update, now);
        resp == h.reply && State() == h.after
    {
      var existing := vitae[id];
      if !FormTruthy(file) {
        resp := CommitEdit(id, name, existing.file, existing.publicId, nameQuery, update, now);
        return;
      }
      if !AcceptedPdf(file) {
        return Failure(400, PdfOnlyMessage);
      }
      blobs := WithoutFileOf(blobs, existing, oldDeleteOk);
      if upload.UploadFailed? {
        return Failure(500, UpdateFailedMessage);
      }
      blobs := blobs + {upload.upload.publicId};
      resp := CommitEdit(id, name, upload.upload.secureUrl, Some(upload.upload.publicId), nameQuery, update, now);
    }

    /** PUT's last step: the name check when the name changes, then the write. */
    method CommitEdit(id: Id, name: string, fileUrl: string, publicId: Option<BlobId>, nameQuery: QueryOutcome,
                      update: StoreOutcome, now: Timestamp) returns (resp: Reply<Saved<Vitae>>)
      requires id in vitae
      modifies this
      ensures var h := PutCommit(old(State()), id, name, fileUrl, publicId, nameQuery, update, now);
        resp == h.reply && State() == h.after
    {
      var existing := vitae[id];
      if name != existing.name {
        if nameQuery.QueryFailed? {
          return Failure(500, UpdateFailedMessage);
        }
        if NameInUse(vitae, name, Some(id)) {
          return Failure(400, NameTakenMessage);
        }
      }
      if update.StoreFailed? {
        return Failure(500, UpdateFailedMessage);
      }
      var record := Vitae(name, fileUrl, publicId, existing.createdAt, Some(now));
      vitae := vitae[id := record];
      return Success(200, Saved(id, record));
    }

    method Delete(req: DeleteRequest, blobDeleteOk: bool, removal: StoreOutcome) returns (resp: Reply<()>)
      modifies this
      ensures var h := DeleteEffect(old(State()), req, blobDeleteOk, removal);
        resp == h.reply && State() == h.after
    {
      if !req.parsed {
        return Failure(500, DeleteFailedMessage);
      }
      if req.id.None? {
        return Failure(400, IdRequiredMessage);
      }
      var id := req.id.value;
      if id !in vitae {
        return Failure(404, NotFoundMessage);
      }
      blobs := WithoutFileOf(blobs, vitae[id], blobDeleteOk);
      if removal.StoreFailed? {
        return Failure(500, DeleteFailedMessage);
      }
      vitae := vitae - {id};
      return Reply(200, Some(true), None, None);
    }
  }
}
