/**
 * The POST, PUT and DELETE handlers of the media route, run against an
 * in-memory document collection and media host. Each handler's effect is a
 * function from the stores and the outcomes of the external calls to the
 * reply and the new stores; the `Services` class performs the same steps on
 * its fields. The lemmas say which paths keep the collection and the hosted
 * videos consistent (no orphan video, no dangling `publicId`).
 */
module MediaHandlers {

  import opened Common
  import opened Text
  import opened Records
  import opened MediaRoute
  import BlobLedger

  const ContentTypeMessage := "Content-Type doit être multipart/form-data"
  const FormParseMessage := "Erreur de parsing des données du formulaire"
  const TitleRequiredMessage := "Le titre est requis"
  const VideoRequiredMessage := "Le fichier vidéo est requis"
  const TitleTakenMessage := "Une vidéo avec ce titre existe déjà"
  const IdAndTitleMessage := "ID et titre requis"
  const NotFoundMessage := "Vidéo non trouvée"
  const UpdateFailedMessage := "Échec de la mise à jour de la vidéo"
  const IdRequiredMessage := "L'ID est requis"
  const DeleteFailedMessage := "Échec de la suppression de la vidéo"

  /** The media collection and the hosted videos. */
  type Store = Stores<Media>

  /** The hosted file a media record names: its public id, when truthy. */
  function MediaRef(m: Media): Option<BlobId> {
    if Truthy(m.publicId) then m.publicId else None
  }

  ghost predicate Consistent(s: Store) {
    BlobLedger.Consistent(s.docs, s.blobs, MediaRef)
  }


  /** The catch block of POST. */
  function ErrorReply<T>(message: string): (r: Reply<T>)
    ensures r.status == ClassifyError(message).status && r.error == Some(ClassifyError(message).message)
    ensures r.success == Some(false)
  {
    var c := ClassifyError(message);
    Failure(c.status, c.message)
  }

  // ---------------------------------------------------------------- POST

  /** A multipart POST: the content type, whether the body parsed, and its fields. */
  datatype PostRequest = PostRequest(
    contentType: Option<string>,
    parsed: bool,
    title: string,
    description: string,
    category: string,
    src: FormValue)

  /** The checks POST makes before uploading, in order; `None` lets the request through. */
  function PostPrecheck(req: PostRequest): (e: Option<string>)
    ensures e.None? <==>
      && req.contentType.Some? && Contains(req.contentType.value, "multipart/form-data")
      && req.parsed && Trim(req.title) != ""
      && req.src.Attached? && ValidateVideoFile(req.src.file).Accepted?
    ensures e.Some? && req.contentType.Some? && Contains(req.contentType.value, "multipart/form-data")
            && req.parsed && Trim(req.title) != "" && req.src.Attached?
            ==> e == Some(ValidateVideoFile(req.src.file).error)
  {
    if req.contentType.None? || !Contains(req.contentType.value, "multipart/form-data") then Some(ContentTypeMessage)
    else if !req.parsed then Some(FormParseMessage)
    else if Trim(req.title) == "" then Some(TitleRequiredMessage)
    else if !req.src.Attached? then Some(VideoRequiredMessage)
    else match ValidateVideoFile(req.src.file)
      case Rejected(error) => Some(error)
      case Accepted => None
  }

  /** `category?.trim() || "general"`. */
  function CategoryOrGeneral(category: string): (r: string)
    ensures r != ""
    ensures Trim(category) != "" ==> r == Trim(category)
  {
    if Trim(category) == "" then "general" else Trim(category)
  }

  /** The record POST stores for an uploaded video. */
  function NewMedia(req: PostRequest, v: Video, now: Timestamp): Media {
    Media(Trim(req.title), Trim(req.description), v.secureUrl, CategoryOrGeneral(req.category),
          v.duration, 0, Some(v.publicId), v.width, v.height, v.format, v.bytes, Some(now), Some(now))
  }

  /** POST's title check, made on the collection as it was when the request came in. */
  function PostTitleTaken(s: Store, req: PostRequest, titleQueries: seq<QueryOutcome>): bool {
    CheckTitleExists(s.docs, Trim(req.title), None, titleQueries, 0).taken
  }

  /**
   * POST: the checks, then the upload and the title check side by side; a
   * taken title triggers a best-effort deletion of the upload, and a failed
   * save leaves the upload in place.
   */
  function PostEffect(s: Store, req: PostRequest, host: HostReply, titleQueries: seq<QueryOutcome>,
                      cleanupOk: bool, save: StoreOutcome, now: Timestamp): (h: Handled<Saved<Media>, Media>)
    ensures h.after.nextId >= s.nextId
  {
    match PostPrecheck(req)
    case Some(e) => Handled(Failure(400, e), s)
    case None =>
      match UploadVideo(host)
      case VideoUploadFailed(message) => Handled(ErrorReply(message), s)
      case VideoUploaded(v) => PostCommit(s, req, v, PostTitleTaken(s, req, titleQueries), cleanupOk, save, now)
  }

  /** POST once the video is hosted and the title check has answered `taken`. */
  function PostCommit(s: Store, req: PostRequest, v: Video, taken: bool, cleanupOk: bool, save: StoreOutcome,
                      now: Timestamp): (h: Handled<Saved<Media>, Media>)
    ensures h.after.nextId >= s.nextId
  {
    var uploaded := s.blobs + {v.publicId};
    if taken then
      Handled(Failure(400, TitleTakenMessage), s.(blobs := Destroyed(uploaded, v.publicId, cleanupOk)))
    else match save
      case StoreFailed(message) => Handled(ErrorReply(message), s.(blobs := uploaded))
      case Stored =>
        var record := NewMedia(req, v, now);
        Handled(Success(201, Saved(s.nextId, record)), Stores(s.docs[s.nextId := record], uploaded, s.nextId + 1))
  }

  /** POST hands out identifiers in order, so an identifier is never reused. */
  lemma PostKeepsIssued(s: Store, req: PostRequest, host: HostReply, titleQueries: seq<QueryOutcome>,
                        cleanupOk: bool, save: StoreOutcome, now: Timestamp)
    requires Issued(s)
    ensures Issued(PostEffect(s, req, host, titleQueries, cleanupOk, save, now).after)
  {
    if PostPrecheck(req).None? && UploadVideo(host).VideoUploaded? {
      PostCommitKeepsIssued(s, req, UploadVideo(host).video, PostTitleTaken(s, req, titleQueries), cleanupOk, save, now);
    }
  }

  lemma PostCommitKeepsIssued(s: Store, req: PostRequest, v: Video, taken: bool, cleanupOk: bool, save: StoreOutcome,
                              now: Timestamp)
    requires Issued(s)
    ensures Issued(PostCommit(s, req, v, taken, cleanupOk, save, now).after)
  {
    var h := PostCommit(s, req, v, taken, cleanupOk, save, now);
    if !taken && save.Stored? {
      forall k | k in h.after.docs ensures k < h.after.nextId {
        if k != s.nextId { assert k in s.docs; }
      }
    }
  }

  /** A request the checks refuse is answered 400 and touches neither store. */
  lemma PostRefusedTouchesNothing(s: Store, req: PostRequest, host: HostReply, titleQueries: seq<QueryOutcome>,
                                  cleanupOk: bool, save: StoreOutcome, now: Timestamp)
    requires PostPrecheck(req).Some?
    ensures var h := PostEffect(s, req, host, titleQueries, cleanupOk, save, now);
      h.reply.status == 400 && h.reply.error == PostPrecheck(req) && h.after == s
  {
  }

  /**
   * A record is inserted exactly when the checks pass, the upload succeeds,
   * the title is free and the save succeeds; it is then the one new record,
   * under a fresh identifier, carrying the trimmed title, the defaults and
   * the upload's fields, and the reply is 201 with it.
   */
  lemma PostInsertsOnlyOnSuccess(s: Store, req: PostRequest, host: HostReply, titleQueries: seq<QueryOutcome>,
                                 cleanupOk: bool, save: StoreOutcome, now: Timestamp)
    requires Issued(s)
    ensures var h := PostEffect(s, req, host, titleQueries, cleanupOk, save, now);
      && (h.reply.status == 201 <==>
            PostPrecheck(req).None? && UploadVideo(host).VideoUploaded? && !PostTitleTaken(s, req, titleQueries) && save.Stored?)
      && (h.reply.status != 201 ==> h.after.docs == s.docs && h.after.nextId == s.nextId)
      && (h.reply.status == 201 ==>
            var v := UploadVideo(host).video;
            var r := h.after.docs[s.nextId];
            && s.nextId !in s.docs && h.after.docs == s.docs[s.nextId := r]
            && h.reply.data == Some(Saved(s.nextId, r))
            && r.title == Trim(req.title) && r.description == Trim(req.description)
            && r.category == CategoryOrGeneral(req.category) && r.views == 0
            && r.src == v.secureUrl && r.publicId == Some(v.publicId) && r.duration == v.duration
            && r.width == v.width && r.height == v.height && r.format == v.format && r.fileSize == v.bytes)
  {
    if PostPrecheck(req).None? && UploadVideo(host).VideoUploaded? {
      var v := UploadVideo(host).video;
      var taken := PostTitleTaken(s, req, titleQueries);
      assert PostEffect(s, req, host, titleQueries, cleanupOk, save, now) == PostCommit(s, req, v, taken, cleanupOk, save, now);
      PostCommitInserts(s, req, v, taken, cleanupOk, save, now);
    } else if PostPrecheck(req).None? {
      ClassifyNeverCreated(StoreFailed(UploadVideo(host).message));
    }
  }

  lemma PostCommitInserts(s: Store, req: PostRequest, v: Video, taken: bool, cleanupOk: bool, save: StoreOutcome,
                          now: Timestamp)
    requires Issued(s)
    ensures var h := PostCommit(s, req, v, taken, cleanupOk, save, now);
      && (h.reply.status == 201 <==> !taken && save.Stored?)
      && (h.reply.status != 201 ==> h.after.docs == s.docs && h.after.nextId == s.nextId)
      && (h.reply.status == 201 ==>
            var r := NewMedia(req, v, now);
            && s.nextId !in s.docs && h.after.docs == s.docs[s.nextId := r] && h.after.docs[s.nextId] == r
            && h.reply.data == Some(Saved(s.nextId, r)))
  {
    if !taken {
      ClassifyNeverCreated(save);
    }
  }

  lemma ClassifyNeverCreated(save: StoreOutcome)
    ensures save.StoreFailed? ==> ClassifyError(save.message).status != 201
  {
  }

  /**
   * With a store that answers the title query, a title some record already
   * has is never inserted a second time.
   */
  lemma PostInsertsFreshTitle(s: Store, req: PostRequest, host: HostReply, titleQueries: seq<QueryOutcome>,
                              cleanupOk: bool, save: StoreOutcome, now: Timestamp)
    requires Issued(s) && EventuallyAnswered(titleQueries, 0)
    ensures PostEffect(s, req, host, titleQueries, cleanupOk, save, now).reply.status == 201 ==>
      forall k :: k in s.docs ==> s.docs[k].title != Trim(req.title)
  {
    PostInsertsOnlyOnSuccess(s, req, host, titleQueries, cleanupOk, save, now);
    TrimIdempotent(req.title);
  }

  /** POST leaves the uploaded video behind with no record naming it. */
  predicate PostLeavesOrphan(s: Store, req: PostRequest, host: HostReply, titleQueries: seq<QueryOutcome>,
                             cleanupOk: bool, save: StoreOutcome) {
    && PostPrecheck(req).None? && UploadVideo(host).VideoUploaded?
    && if PostTitleTaken(s, req, titleQueries) then !cleanupOk else save.StoreFailed?
  }

  /**
   * From consistent stores and a fresh upload, POST ends consistent exactly
   * when it does not leave an orphan: when the cleanup after a title
   * conflict fails, or the save after the upload fails, the video stays
   * hosted with no record naming it.
   */
  lemma PostLedger(s: Store, req: PostRequest, host: HostReply, titleQueries: seq<QueryOutcome>,
                   cleanupOk: bool, save: StoreOutcome, now: Timestamp)
    requires Issued(s) && Consistent(s)
    requires UploadVideo(host).VideoUploaded? ==> FreshBlob(UploadVideo(host).video.publicId, s.blobs)
    ensures Consistent(PostEffect(s, req, host, titleQueries, cleanupOk, save, now).after)
      <==> !PostLeavesOrphan(s, req, host, titleQueries, cleanupOk, save)
  {
    if PostPrecheck(req).None? && UploadVideo(host).VideoUploaded? {
      PostCommitLedger(s, req, UploadVideo(host).video, PostTitleTaken(s, req, titleQueries), cleanupOk, save, now);
    }
  }

  lemma PostCommitLedger(s: Store, req: PostRequest, v: Video, taken: bool, cleanupOk: bool, save: StoreOutcome,
                         now: Timestamp)
    requires Issued(s) && Consistent(s) && FreshBlob(v.publicId, s.blobs)
    ensures Consistent(PostCommit(s, req, v, taken, cleanupOk, save, now).after)
      <==> if taken then cleanupOk else save.Stored?
  {
    if taken {
      UploadThenDestroyed(s, v.publicId, cleanupOk);
    } else if save.StoreFailed? {
      UploadKeptUnnamed(s, v.publicId);
    } else {
      BlobLedger.InsertKeeps(s.docs, s.blobs, MediaRef, s.nextId, NewMedia(req, v, now));
    }
  }

  /** A fresh upload deleted again leaves consistent stores exactly when the deletion succeeds. */
  lemma UploadThenDestroyed(s: Store, p: BlobId, ok: bool)
    requires Consistent(s) && FreshBlob(p, s.blobs)
    ensures Consistent(s.(blobs := Destroyed(s.blobs + {p}, p, ok))) <==> ok
  {
    if ok {
      assert Destroyed(s.blobs + {p}, p, ok) == s.blobs;
    } else {
      UploadKeptUnnamed(s, p);
    }
  }

  /** A fresh upload that no record names is an orphan. */
  lemma UploadKeptUnnamed(s: Store, p: BlobId)
    requires Consistent(s) && FreshBlob(p, s.blobs)
    ensures !Consistent(s.(blobs := s.blobs + {p}))
  {
    BlobLedger.FreshIsUnnamed(s.docs, s.blobs, MediaRef, p);
    BlobLedger.OrphanBreaks(s.docs, s.blobs + {p}, MediaRef, p);
  }

  // ---------------------------------------------------------------- PUT

  /** A multipart PUT; `parsed` is false when the body is not a form. */
  datatype PutRequest = PutRequest(
    parsed: bool,
    id: Option<Id>,
    title: string,
    description: string,
    category: string,
    src: FormValue)

  /** The request names an existing record and a non-blank title. */
  predicate PutAdmitted(s: Store, req: PutRequest) {
    req.parsed && req.id.Some? && Trim(req.title) != "" && req.id.value in s.docs
  }

  /** The text fields PUT always writes. */
  function EditedMedia(existing: Media, req: PutRequest, now: Timestamp): Media {
    existing.(title := Trim(req.title), description := Trim(req.description),
              category := CategoryOrGeneral(req.category), updatedAt := Some(now))
  }

  /** The fields PUT writes when a new video was uploaded. */
  function WithVideo(m: Media, v: Video): Media {
    m.(src := v.secureUrl, publicId := Some(v.publicId), width := v.width, height := v.height,
       format := v.format, fileSize := v.bytes, duration := v.duration)
  }

  /** PUT's title check: only a changed title is checked, excluding the record itself. */
  function PutTitleTaken(s: Store, req: PutRequest, titleQueries: seq<QueryOutcome>): bool
    requires PutAdmitted(s, req)
  {
    Trim(req.title) != s.docs[req.id.value].title
      && CheckTitleExists(s.docs, Trim(req.title), req.id, titleQueries, 0).taken
  }

  /** The hosted videos once PUT uploaded `v` and asked for the file the record named before to be deleted. */
  function BlobsAfterReplacement(blobs: set<BlobId>, existing: Media, v: Video, oldDeleteOk: bool): set<BlobId> {
    if Truthy(existing.publicId) then Destroyed(blobs + {v.publicId}, existing.publicId.value, oldDeleteOk)
    else blobs + {v.publicId}
  }

  /**
   * PUT: the text fields are always rewritten; a new video is uploaded and
   * the old one deleted before the title check, and a taken title deletes
   * the new upload again. Any exception answers 500.
   */
  function PutEffect(s: Store, req: PutRequest, host: HostReply, oldDeleteOk: bool, titleQueries: seq<QueryOutcome>,
                     cleanupOk: bool, update: StoreOutcome, now: Timestamp): (h: Handled<Saved<Media>, Media>)
    ensures h.after.nextId == s.nextId && h.after.docs.Keys == s.docs.Keys
  {
    if !req.parsed then Handled(Failure(500, UpdateFailedMessage), s)
    else if req.id.None? || Trim(req.title) == "" then Handled(Failure(400, IdAndTitleMessage), s)
    else if req.id.value !in s.docs then Handled(Failure(404, NotFoundMessage), s)
    else
      var id := req.id.value;
      PutAdmittedEffect(s, id, EditedMedia(s.docs[id], req, now), req.src, host, oldDeleteOk,
                        PutTitleTaken(s, req, titleQueries), cleanupOk, update)
  }

  /** PUT on an existing record, with `edited` its new text fields and `taken` the title check's answer. */
  function PutAdmittedEffect(s: Store, id: Id, edited: Media, src: FormValue, host: HostReply, oldDeleteOk: bool,
                             taken: bool, cleanupOk: bool, update: StoreOutcome): (h: Handled<Saved<Media>, Media>)
    requires id in s.docs
    ensures h.after.nextId == s.nextId && h.after.docs.Keys == s.docs.Keys
  {
    match src
    case Attached(f) =>
      (match ValidateVideoFile(f)
       case Rejected(error) => Handled(Failure(400, error), s)
       case Accepted =>
         match host
         case Delivered(t) =>
           var v := UploadedVideo(t);
           PutCommit(s.(blobs := BlobsAfterReplacement(s.blobs, s.docs[id], v, oldDeleteOk)), id,
                     WithVideo(edited, v), Some(v.publicId), taken, cleanupOk, update)
         case _ => Handled(Failure(500, UpdateFailedMessage), s))
    case _ => PutCommit(s, id, edited, None, taken, cleanupOk, update)
  }

  /** `PutAdmittedEffect` by the new-file step's outcome, for any answer of the title check. */
  lemma AdmittedSteps(s: Store, id: Id, edited: Media, src: FormValue, host: HostReply, oldDeleteOk: bool,
                      taken: bool, cleanupOk: bool, update: StoreOutcome)
    requires id in s.docs
    ensures var h := PutAdmittedEffect(s, id, edited, src, host, oldDeleteOk, taken, cleanupOk, update);
      && (!src.Attached? ==> h == PutCommit(s, id, edited, None, taken, cleanupOk, update))
      && (src.Attached? && ValidateVideoFile(src.file).Rejected? ==>
            h == Handled(Failure(400, ValidateVideoFile(src.file).error), s))
      && (src.Attached? && ValidateVideoFile(src.file).Accepted? && !host.Delivered? ==>
            h == Handled(Failure(500, UpdateFailedMessage), s))
      && (src.Attached? && ValidateVideoFile(src.file).Accepted? && host.Delivered? ==>
            var v := UploadedVideo(host.transfer);
            h == PutCommit(s.(blobs := BlobsAfterReplacement(s.blobs, s.docs[id], v, oldDeleteOk)), id,
                           WithVideo(edited, v), Some(v.publicId), taken, cleanupOk, update))
  {
  }

  /** PUT once any new video is hosted: the title conflict, then the write. */
  function PutCommit(s: Store, id: Id, updated: Media, newFile: Option<BlobId>, taken: bool, cleanupOk: bool,
                     update: StoreOutcome): (h: Handled<Saved<Media>, Media>)
    ensures h.after.nextId == s.nextId
    ensures id in s.docs ==> h.after.docs.Keys == s.docs.Keys
  {
    if taken then
      var b := if Truthy(newFile) then Destroyed(s.blobs, newFile.value, cleanupOk) else s.blobs;
      Handled(Failure(400, TitleTakenMessage), s.(blobs := b))
    else match update
      case StoreFailed(_) => Handled(Failure(500, UpdateFailedMessage), s)
      case Stored => Handled(Success(200, Saved(id, updated)), s.(docs := s.docs[id := updated]))
  }

  /**
   * A body that is not a form answers 500, a missing id or blank title 400,
   * an unknown id 404, an invalid video 400 with the validation message and a
   * failed upload 500; and none of them touches either store.
   */
  lemma PutRefusedTouchesNothing(s: Store, req: PutRequest, host: HostReply, oldDeleteOk: bool,
                                 titleQueries: seq<QueryOutcome>, cleanupOk: bool, update: StoreOutcome, now: Timestamp)
    ensures var h := PutEffect(s, req, host, oldDeleteOk, titleQueries, cleanupOk, update, now);
      && (!req.parsed ==> h.reply == Failure(500, UpdateFailedMessage) && h.after == s)
      && (req.parsed && (req.id.None? || Trim(req.title) == "") ==> h.reply == Failure(400, IdAndTitleMessage) && h.after == s)
      && (req.parsed && req.id.Some? && Trim(req.title) != "" && req.id.value !in s.docs ==>
            h.reply == Failure(404, NotFoundMessage) && h.after == s)
      && (PutAdmitted(s, req) && req.src.Attached? && ValidateVideoFile(req.src.file).Rejected? ==>
            h.reply == Failure(400, ValidateVideoFile(req.src.file).error) && h.after == s)
      && (PutAdmitted(s, req) && req.src.Attached? && ValidateVideoFile(req.src.file).Accepted?
          && UploadVideo(host).VideoUploadFailed? ==>
            h.reply == Failure(500, UpdateFailedMessage) && h.after == s)
  {
    if PutAdmitted(s, req) && req.src.Attached? {
      var id := req.id.value;
      assert PutEffect(s, req, host, oldDeleteOk, titleQueries, cleanupOk, update, now)
        == PutAdmittedEffect(s, id, EditedMedia(s.docs[id], req, now), req.src, host, oldDeleteOk,
                             PutTitleTaken(s, req, titleQueries), cleanupOk, update);
    }
  }

  /**
   * The record is rewritten exactly when the request is admitted, any new
   * video is valid and hosted, the title is free and the write succeeds.
   * Only the edited record changes: it gets the trimmed title and the
   * defaults, keeps its views and creation time, and takes the video fields
   * from the upload when there is one and keeps its own otherwise.
   */
  lemma PutRewritesOnlyOnSuccess(s: Store, req: PutRequest, host: HostReply, oldDeleteOk: bool,
                                 titleQueries: seq<QueryOutcome>, cleanupOk: bool, update: StoreOutcome, now: Timestamp)
    ensures var h := PutEffect(s, req, host, oldDeleteOk, titleQueries, cleanupOk, update, now);
      && (h.reply.status == 200 <==>
            && PutAdmitted(s, req)
            && (req.src.Attached? ==> ValidateVideoFile(req.src.file).Accepted? && UploadVideo(host).VideoUploaded?)
            && !PutTitleTaken(s, req, titleQueries) && update.Stored?)
      && (h.reply.status != 200 ==> h.after.docs == s.docs)
      && (h.reply.status == 200 ==>
            var id := req.id.value;
            var before := s.docs[id];
            var r := h.after.docs[id];
            && h.after.docs == s.docs[id := r] && h.reply.data == Some(Saved(id, r))
            && r.title == Trim(req.title) && r.description == Trim(req.description)
            && r.category == CategoryOrGeneral(req.category)
            && r.views == before.views && r.createdAt == before.createdAt && r.updatedAt == Some(now)
            && (req.src.Attached? ==>
                  r.src == UploadVideo(host).video.secureUrl && r.publicId == Some(UploadVideo(host).video.publicId))
            && (!req.src.Attached? ==> r.src == before.src && r.publicId == before.publicId && h.after.blobs == s.blobs))
  {
    if PutAdmitted(s, req) {
      var id := req.id.value;
      AdmittedRewritesOnlyOnSuccess(s, id, EditedMedia(s.docs[id], req, now), req.src, host, oldDeleteOk,
                                    PutTitleTaken(s, req, titleQueries), cleanupOk, update);
    }
  }

  lemma AdmittedRewritesOnlyOnSuccess(s: Store, id: Id, edited: Media, src: FormValue, host: HostReply,
                                      oldDeleteOk: bool, taken: bool, cleanupOk: bool, update: StoreOutcome)
    requires id in s.docs
    ensures var h := PutAdmittedEffect(s, id, edited, src, host, oldDeleteOk, taken, cleanupOk, update);
      && (h.reply.status == 200 <==>
            (src.Attached? ==> ValidateVideoFile(src.file).Accepted? && host.Delivered?) && !taken && update.Stored?)
      && (h.reply.status != 200 ==> h.after.docs == s.docs)
      && (h.reply.status == 200 ==>
            && h.reply.data == Some(Saved(id, h.after.docs[id]))
            && (src.Attached? ==> h.after.docs == s.docs[id := WithVideo(edited, UploadedVideo(host.transfer))])
            && (!src.Attached? ==> h.after.docs == s.docs[id := edited] && h.after.blobs == s.blobs))
  {
    if src.Attached? && ValidateVideoFile(src.file) == Accepted {
      ValidationStatus(src.file);
    }
  }

  lemma ValidationStatus(f: FileInfo)
    requires ValidateVideoFile(f).Accepted?
    ensures Failure<Saved<Media>>(400, "").status != 200
  {
  }

  /**
   * Without a new video file the hosted videos and every record's video
   * fields stay as they were, and consistency is kept.
   */
  lemma PutWithoutFileKeepsVideos(s: Store, req: PutRequest, host: HostReply, oldDeleteOk: bool,
                                  titleQueries: seq<QueryOutcome>, cleanupOk: bool, update: StoreOutcome, now: Timestamp)
    requires !req.src.Attached?
    ensures var h := PutEffect(s, req, host, oldDeleteOk, titleQueries, cleanupOk, update, now);
      && h.after.blobs == s.blobs
      && (forall k :: k in h.after.docs ==>
            h.after.docs[k].src == s.docs[k].src && h.after.docs[k].publicId == s.docs[k].publicId)
      && (Consistent(s) ==> Consistent(h.after))
  {
    if PutAdmitted(s, req) {
      var id := req.id.value;
      var edited := EditedMedia(s.docs[id], req, now);
      AdmittedWithoutFile(s, id, edited, req.src, host, oldDeleteOk, PutTitleTaken(s, req, titleQueries), cleanupOk, update);
    }
  }

  lemma AdmittedWithoutFile(s: Store, id: Id, edited: Media, src: FormValue, host: HostReply,
                            oldDeleteOk: bool, taken: bool, cleanupOk: bool, update: StoreOutcome)
    requires id in s.docs && !src.Attached?
    requires edited.src == s.docs[id].src && edited.publicId == s.docs[id].publicId
    ensures var h := PutAdmittedEffect(s, id, edited, src, host, oldDeleteOk, taken, cleanupOk, update);
      && h.after.blobs == s.blobs
      && (forall k :: k in h.after.docs ==>
            h.after.docs[k].src == s.docs[k].src && h.after.docs[k].publicId == s.docs[k].publicId)
      && (Consistent(s) ==> Consistent(h.after))
  {
    assert PutAdmittedEffect(s, id, edited, src, host, oldDeleteOk, taken, cleanupOk, update)
        == PutCommit(s, id, edited, None, taken, cleanupOk, update);
    if !taken && update.Stored? && Consistent(s) {
      BlobLedger.SameRefKeeps(s.docs, s.blobs, MediaRef, id, edited);
    }
  }

  /**
   * Keeping one's own title never conflicts: when no other record holds the
   * trimmed title, PUT does not answer with the title conflict, whatever
   * the store answers to the title query.
   */
  lemma PutOwnTitleNeverConflicts(s: Store, req: PutRequest, host: HostReply, oldDeleteOk: bool,
                                  titleQueries: seq<QueryOutcome>, cleanupOk: bool, update: StoreOutcome, now: Timestamp)
    requires PutAdmitted(s, req)
    requires forall k :: k in s.docs && s.docs[k].title == Trim(req.title) ==> k == req.id.value
    ensures PutEffect(s, req, host, oldDeleteOk, titleQueries, cleanupOk, update, now).reply.error != Some(TitleTakenMessage)
  {
    OwnTitleNotTaken(s, req, titleQueries);
    var id := req.id.value;
    assert PutEffect(s, req, host, oldDeleteOk, titleQueries, cleanupOk, update, now)
        == PutAdmittedEffect(s, id, EditedMedia(s.docs[id], req, now), req.src, host, oldDeleteOk,
                             false, cleanupOk, update);
    AdmittedConflictOnlyWhenTaken(s, id, EditedMedia(s.docs[id], req, now), req.src, host, oldDeleteOk,
                                  false, cleanupOk, update);
  }

  /** When no other record holds the trimmed title, PUT's title check answers "not taken". */
  lemma OwnTitleNotTaken(s: Store, req: PutRequest, titleQueries: seq<QueryOutcome>)
    requires PutAdmitted(s, req)
    requires forall k :: k in s.docs && s.docs[k].title == Trim(req.title) ==> k == req.id.value
    ensures !PutTitleTaken(s, req, titleQueries)
  {
    OwnTitleIsNotAConflict(s.docs, req.id.value, Trim(req.title), titleQueries);
    TrimIdempotent(req.title);
  }

  lemma AdmittedConflictOnlyWhenTaken(s: Store, id: Id, edited: Media, src: FormValue, host: HostReply,
                                      oldDeleteOk: bool, taken: bool, cleanupOk: bool, update: StoreOutcome)
    requires id in s.docs
    ensures var h := PutAdmittedEffect(s, id, edited, src, host, oldDeleteOk, taken, cleanupOk, update);
      h.reply.error == Some(TitleTakenMessage) ==> taken
  {
    if src.Attached? && ValidateVideoFile(src.file).Rejected? {
      ValidationMessages(src.file);
    }
  }

  lemma ValidationMessages(f: FileInfo)
    requires ValidateVideoFile(f).Rejected?
    ensures ValidateVideoFile(f).error != TitleTakenMessage
  {
    assert |FormatMessage| != |TitleTakenMessage|;
    assert SizeMessage[0] != 'U' && TitleTakenMessage[0] == 'U';
  }

  /**
   * With a new video on consistent stores: a successful PUT is consistent
   * exactly when the old video was deleted (or there was none); a title
   * conflict is consistent exactly when the new upload was deleted and the
   * old video was not (deleting it already left the record dangling); a
   * failed write always leaves the new upload orphaned.
   */
  lemma PutLedger(s: Store, req: PutRequest, host: HostReply, oldDeleteOk: bool,
                  titleQueries: seq<QueryOutcome>, cleanupOk: bool, update: StoreOutcome, now: Timestamp)
    requires Consistent(s) && PutAdmitted(s, req) && req.src.Attached?
    requires ValidateVideoFile(req.src.file).Accepted? && UploadVideo(host).VideoUploaded?
    requires FreshBlob(UploadVideo(host).video.publicId, s.blobs)
    ensures var h := PutEffect(s, req, host, oldDeleteOk, titleQueries, cleanupOk, update, now);
      var hadFile := Truthy(s.docs[req.id.value].publicId);
      && (h.reply.status == 200 ==> (Consistent(h.after) <==> !hadFile || oldDeleteOk))
      && (h.reply.status == 400 ==> (Consistent(h.after) <==> cleanupOk && (!hadFile || !oldDeleteOk)))
      && (h.reply.status == 500 ==> !Consistent(h.after))
  {
    var id := req.id.value;
    var v := UploadedVideo(host.transfer);
    var edited := EditedMedia(s.docs[id], req, now);
    var taken := PutTitleTaken(s, req, titleQueries);
    assert PutEffect(s, req, host, oldDeleteOk, titleQueries, cleanupOk, update, now)
        == PutAdmittedEffect(s, id, edited, req.src, host, oldDeleteOk, taken, cleanupOk, update);
    assert PutAdmittedEffect(s, id, edited, req.src, host, oldDeleteOk, taken, cleanupOk, update)
        == PutCommit(s.(blobs := BlobsAfterReplacement(s.blobs, s.docs[id], v, oldDeleteOk)), id,
                     WithVideo(edited, v), Some(v.publicId), taken, cleanupOk, update);
    PutCommitLedger(s, id, WithVideo(edited, v), v, oldDeleteOk, taken, cleanupOk, update);
  }

  lemma PutCommitLedger(s: Store, id: Id, r: Media, v: Video, oldDeleteOk: bool, taken: bool, cleanupOk: bool,
                        update: StoreOutcome)
    requires Consistent(s) && id in s.docs && FreshBlob(v.publicId, s.blobs) && r.publicId == Some(v.publicId)
    ensures var h := PutCommit(s.(blobs := BlobsAfterReplacement(s.blobs, s.docs[id], v, oldDeleteOk)), id, r,
                               Some(v.publicId), taken, cleanupOk, update);
      var hadFile := Truthy(s.docs[id].publicId);
      && (h.reply.status == 200 ==> (Consistent(h.after) <==> !hadFile || oldDeleteOk))
      && (h.reply.status == 400 ==> (Consistent(h.after) <==> cleanupOk && (!hadFile || !oldDeleteOk)))
      && (h.reply.status == 500 ==> !Consistent(h.after))
  {
    var p := v.publicId;
    var replaced := BlobsAfterReplacement(s.blobs, s.docs[id], v, oldDeleteOk);
    BlobLedger.FreshIsUnnamed(s.docs, s.blobs, MediaRef, p);
    if taken {
      ConflictLedger(s, id, p, oldDeleteOk, cleanupOk);
      assert BlobsAfterReplacement(s.blobs, s.docs[id], v, oldDeleteOk)
          == BlobsAfterReplacement(s.blobs, s.docs[id], Video("", p, 0, 0, 0, "", 0), oldDeleteOk);
    } else if update.StoreFailed? {
      BlobLedger.OrphanBreaks(s.docs, replaced, MediaRef, p);
    } else {
      ReplacementLedger(s, id, r, oldDeleteOk);
      assert replaced == BlobsAfterReplacement(s.blobs, s.docs[id], Video("", p, 0, 0, 0, "", 0), oldDeleteOk);
    }
  }

  lemma ConflictLedger(s: Store, id: Id, p: BlobId, oldDeleteOk: bool, cleanupOk: bool)
    requires Consistent(s) && id in s.docs && FreshBlob(p, s.blobs)
    ensures var after := Destroyed(BlobsAfterReplacement(s.blobs, s.docs[id], Video("", p, 0, 0, 0, "", 0), oldDeleteOk), p, cleanupOk);
      BlobLedger.Consistent(s.docs, after, MediaRef) <==> cleanupOk && (!Truthy(s.docs[id].publicId) || !oldDeleteOk)
  {
    var after := Destroyed(BlobsAfterReplacement(s.blobs, s.docs[id], Video("", p, 0, 0, 0, "", 0), oldDeleteOk), p, cleanupOk);
    BlobLedger.FreshIsUnnamed(s.docs, s.blobs, MediaRef, p);
    if !cleanupOk {
      BlobLedger.OrphanBreaks(s.docs, after, MediaRef, p);
    } else if Truthy(s.docs[id].publicId) && oldDeleteOk {
      BlobLedger.DanglingBreaks(s.docs, after, MediaRef, id);
    } else {
      assert after == s.blobs;
    }
  }

  lemma ReplacementLedger(s: Store, id: Id, r: Media, oldDeleteOk: bool)
    requires Consistent(s) && id in s.docs && r.publicId.Some? && FreshBlob(r.publicId.value, s.blobs)
    ensures var after := BlobsAfterReplacement(s.blobs, s.docs[id], Video("", r.publicId.value, 0, 0, 0, "", 0), oldDeleteOk);
      BlobLedger.Consistent(s.docs[id := r], after, MediaRef) <==> !Truthy(s.docs[id].publicId) || oldDeleteOk
  {
    var p := r.publicId.value;
    var after := BlobsAfterReplacement(s.blobs, s.docs[id], Video("", p, 0, 0, 0, "", 0), oldDeleteOk);
    BlobLedger.ReplaceKeeps(s.docs, s.blobs, MediaRef, id, r);
    if Truthy(s.docs[id].publicId) {
      var o := s.docs[id].publicId.value;
      BlobLedger.RefsMember(s.docs, MediaRef, id);
      if oldDeleteOk {
        assert after == s.blobs - {o} + {p};
      } else {
        BlobLedger.RenamedIsUnnamed(s.docs, s.blobs, MediaRef, id, r);
        BlobLedger.OrphanBreaks(s.docs[id := r], after, MediaRef, o);
      }
    }
  }

  // ---------------------------------------------------------------- DELETE

  /** A JSON DELETE body; `parsed` is false when it is not JSON. */
  datatype DeleteRequest = DeleteRequest(parsed: bool, id: Option<Id>)

  /**
   * DELETE: the record and its video (when it names one) are deleted side
   * by side, and the reply reports success whatever either deletion did.
   */
  function DeleteEffect(s: Store, req: DeleteRequest, removal: StoreOutcome, blobDeleteOk: bool): (h: Handled<(), Media>)
    ensures h.after.nextId == s.nextId && h.after.docs.Keys <= s.docs.Keys
  {
    if !req.parsed then Handled(Failure(500, DeleteFailedMessage), s)
    else if req.id.None? then Handled(Failure(400, IdRequiredMessage), s)
    else if req.id.value !in s.docs then Handled(Failure(404, NotFoundMessage), s)
    else
      var id := req.id.value;
      var named := MediaRef(s.docs[id]);
      var media := if removal.Stored? then s.docs - {id} else s.docs;
      var blobs := if named.Some? then Destroyed(s.blobs, named.value, blobDeleteOk) else s.blobs;
      Handled(Reply(200, Some(true), None, None), s.(docs := media, blobs := blobs))
  }

  /**
   * An unknown id answers 404 and makes no call to either store; a known id
   * always answers 200, and each deletion happens exactly when its own call
   * succeeds, independently of the other.
   */
  lemma DeleteAttemptsBoth(s: Store, req: DeleteRequest, removal: StoreOutcome, blobDeleteOk: bool)
    ensures var h := DeleteEffect(s, req, removal, blobDeleteOk);
      && (req.parsed && req.id.Some? && req.id.value !in s.docs ==> h.reply == Failure(404, NotFoundMessage) && h.after == s)
      && (req.parsed && req.id.None? ==> h.reply == Failure(400, IdRequiredMessage) && h.after == s)
      && (req.parsed && req.id.Some? && req.id.value in s.docs ==>
            var id := req.id.value;
            && h.reply.status == 200 && h.reply.success == Some(true)
            && (id in h.after.docs <==> removal.StoreFailed?)
            && h.after.docs - {id} == s.docs - {id}
            && (MediaRef(s.docs[id]).Some? ==>
                  h.after.blobs == if blobDeleteOk then s.blobs - {MediaRef(s.docs[id]).value} else s.blobs)
            && (MediaRef(s.docs[id]).None? ==> h.after.blobs == s.blobs))
  {
  }

  /**
   * On consistent stores, deleting a record that names a video stays
   * consistent exactly when both deletions succeed or both fail; a record
   * without a video always stays consistent.
   */
  lemma DeleteLedger(s: Store, req: DeleteRequest, removal: StoreOutcome, blobDeleteOk: bool)
    requires Consistent(s)
    ensures var h := DeleteEffect(s, req, removal, blobDeleteOk);
      Consistent(h.after) <==>
        !(req.parsed && req.id.Some? && req.id.value in s.docs)
        || MediaRef(s.docs[req.id.value]).None? || (removal.Stored? <==> blobDeleteOk)
  {
    if req.parsed && req.id.Some? && req.id.value in s.docs {
      var k := req.id.value;
      var named := MediaRef(s.docs[k]);
      BlobLedger.RemoveKeeps(s.docs, s.blobs, MediaRef, k);
      if named.Some? {
        if removal.Stored? && !blobDeleteOk {
          BlobLedger.OrphanBreaks(s.docs - {k}, s.blobs, MediaRef, named.value);
        } else if removal.StoreFailed? && blobDeleteOk {
          BlobLedger.DanglingBreaks(s.docs, s.blobs - {named.value}, MediaRef, k);
        }
      }
    }
  }

  // ---------------------------------------------------------------- the route

  /** The media collection and the media host as the route handlers see them. */
  class Services {
    var media: map<Id, Media>
    var blobs: set<BlobId>
    var nextId: Id

    function State(): Store
      reads this
    {
      Stores(media, blobs, nextId)
    }

    constructor ()
      ensures State() == Stores(map[], {}, 0) && Issued(State()) && Consistent(State())
    {
      media, blobs, nextId := map[], {}, 0;
    }

    method Post(req: PostRequest, host: HostReply, titleQueries: seq<QueryOutcome>, cleanupOk: bool,
                save: StoreOutcome, now: Timestamp) returns (resp: Reply<Saved<Media>>)
      modifies this
      ensures var h := PostEffect(old(State()), req, host, titleQueries, cleanupOk, save, now);
        resp == h.reply && State() == h.after
    {
      var gate := PostPrecheck(req);
      if gate.Some? {
        return Failure(400, gate.value);
      }
      var upload := UploadVideo(host);
      var titleExists := CheckTitleExists(media, Trim(req.title), None, titleQueries, 0).taken;
      if upload.VideoUploadFailed? {
        return ErrorReply(upload.message);
      }
      resp := CommitUpload(req, upload.video, titleExists, cleanupOk, save, now);
    }

    /** POST once the video is hosted: clean up after a taken title, or save the record. */
    method CommitUpload(req: PostRequest, v: Video, taken: bool, cleanupOk: bool, save: StoreOutcome, now: Timestamp)
      returns (resp: Reply<Saved<Media>>)
      modifies this
      ensures var h := PostCommit(old(State()), req, v, taken, cleanupOk, save, now);
        resp == h.reply && State() == h.after
    {
      ghost var h := PostCommit(State(), req, v, taken, cleanupOk, save, now);
      blobs := blobs + {v.publicId};
      if taken {
        blobs := Destroyed(blobs, v.publicId, cleanupOk);
        return Failure(400, TitleTakenMessage);
      }
      if save.StoreFailed? {
        resp := ErrorReply(save.message);
        assert resp == h.reply && State() == h.after;
        return;
      }
      var record := NewMedia(req, v, now);
      var id := nextId;
      media := media[id := record];
      nextId := nextId + 1;
      return Success(201, Saved(id, record));
    }

    method Put(req: PutRequest, host: HostReply, oldDeleteOk: bool, titleQueries: seq<QueryOutcome>,
               cleanupOk: bool, update: StoreOutcome, now: Timestamp) returns (resp: Reply<Saved<Media>>)
      modifies this
      ensures var h := PutEffect(old(State()), req, host, oldDeleteOk, titleQueries, cleanupOk, update, now);
        resp == h.reply && State() == h.after
    {
      if !req.parsed {
        return Failure(500, UpdateFailedMessage);
      }
      if req.id.None? || Trim(req.title) == "" {
        return Failure(400, IdAndTitleMessage);
      }
      var id := req.id.value;
      if id !in media {
        return Failure(404, NotFoundMessage);
      }
      ghost var before := State();
      var updateData := EditedMedia(media[id], req, now);
      assert PutEffect(before, req, host, oldDeleteOk, titleQueries, cleanupOk, update, now)
          == PutAdmittedEffect(before, id, updateData, req.src, host, oldDeleteOk,
                               PutTitleTaken(before, req, titleQueries), cleanupOk, update);
      resp := EditAdmitted(req, id, updateData, host, oldDeleteOk, titleQueries, cleanupOk, update);
    }

    /** PUT on an existing record: any new video first, then the title check and the write. */
    method EditAdmitted(req: PutRequest, id: Id, data: Media, host: HostReply, oldDeleteOk: bool,
                        titleQueries: seq<QueryOutcome>, cleanupOk: bool, update: StoreOutcome)
      returns (resp: Reply<Saved<Media>>)
      requires PutAdmitted(State(), req) && req.id == Some(id)
      modifies this
      ensures var h := PutAdmittedEffect(old(State()), id, data, req.src, host, oldDeleteOk,
                                         PutTitleTaken(old(State()), req, titleQueries), cleanupOk, update);
        resp == h.reply && State() == h.after
    {
      ghost var before := State();
      AdmittedSteps(before, id, data, req.src, host, oldDeleteOk,
                    PutTitleTaken(before, req, titleQueries), cleanupOk, update);
      var updateData := data;
      var newFile: Option<BlobId> := None;
      if req.src.Attached? {
        var failure;
        failure, updateData, newFile := UploadReplacement(id, req.src.file, host, oldDeleteOk, updateData);
        if failure.Some? {
          return failure.value;
        }
      }
      var titleExists := TitleTaken(req, titleQueries, before);
      resp := CommitEdit(id, updateData, newFile, titleExists, cleanupOk, update);
    }

    /**
     * PUT's title check on the records as they are now, which are those of
     * `before`, the stores as the request found them: the new-file step
     * changes no record.
     */
    method TitleTaken(req: PutRequest, titleQueries: seq<QueryOutcome>, ghost before: Store) returns (taken: bool)
      requires PutAdmitted(before, req) && before.docs == media
      ensures taken == PutTitleTaken(before, req, titleQueries)
    {
      taken := Trim(req.title) != media[req.id.value].title
        && CheckTitleExists(media, Trim(req.title), req.id, titleQueries, 0).taken;
    }

    /** PUT's new-file step: validate, upload, then delete the video the record named before. */
    method UploadReplacement(id: Id, f: FileInfo, host: HostReply, oldDeleteOk: bool, data: Media)
      returns (failure: Option<Reply<Saved<Media>>>, updated: Media, newFile: Option<BlobId>)
      requires id in media
      modifies this
      ensures media == old(media) && nextId == old(nextId)
      ensures ValidateVideoFile(f).Rejected? ==>
        failure == Some(Failure(400, ValidateVideoFile(f).error)) && blobs == old(blobs)
      ensures ValidateVideoFile(f).Accepted? && !host.Delivered? ==>
        failure == Some(Failure(500, UpdateFailedMessage)) && blobs == old(blobs)
      ensures ValidateVideoFile(f).Accepted? && host.Delivered? ==>
        var v := UploadedVideo(host.transfer);
        && failure.None? && updated == WithVideo(data, v) && newFile == Some(v.publicId)
        && blobs == BlobsAfterReplacement(old(blobs), old(media)[id], v, oldDeleteOk)
    {
      updated, newFile := data, None;
      var validation := ValidateVideoFile(f);
      if validation.Rejected? {
        return Some(Failure(400, validation.error)), updated, newFile;
      }
      if !host.Delivered? {
        return Some(Failure(500, UpdateFailedMessage)), updated, newFile;
      }
      var v := UploadedVideo(host.transfer);
      blobs := blobs + {v.publicId};
      updated := WithVideo(updated, v);
      newFile := Some(v.publicId);
      if Truthy(media[id].publicId) {
        blobs := Destroyed(blobs, media[id].publicId.value, oldDeleteOk);
      }
      failure := None;
    }

    /** PUT's last step: a taken title deletes the new upload, otherwise the record is written. */
    method CommitEdit(id: Id, data: Media, newFile: Option<BlobId>, taken: bool, cleanupOk: bool, update: StoreOutcome)
      returns (resp: Reply<Saved<Media>>)
      modifies this
      ensures var h := PutCommit(old(State()), id, data, newFile, taken, cleanupOk, update);
        resp == h.reply && State() == h.after
    {
      if taken {
        if Truthy(newFile) {
          blobs := Destroyed(blobs, newFile.value, cleanupOk);
        }
        return Failure(400, TitleTakenMessage);
      }
      if update.StoreFailed? {
        return Failure(500, UpdateFailedMessage);
      }
      media := media[id := data];
      return Success(200, Saved(id, data));
    }

    method Delete(req: DeleteRequest, removal: StoreOutcome, blobDeleteOk: bool) returns (resp: Reply<()>)
      modifies this
      ensures var h := DeleteEffect(old(State()), req, removal, blobDeleteOk);
        resp == h.reply && State() == h.after
    {
      if !req.parsed {
        return Failure(500, DeleteFailedMessage);
      }
      if req.id.None? {
        return Failure(400, IdRequiredMessage);
      }
      var id := req.id.value;
      if id !in media {
        return Failure(404, NotFoundMessage);
      }
      var record := media[id];
      if removal.Stored? {
        media := media - {id};
      }
      if Truthy(record.publicId) {
        blobs := Destroyed(blobs, record.publicId.value, blobDeleteOk);
      }
      return Reply(200, Some(true), None, None);
    }
  }
}
