/**
 * The `/api/media` route: video uploads to the media host and their records
 * in the `media` collection, with title uniqueness, a retrying title check
 * that lets the request through when the store keeps failing, and a mapping
 * of failures to HTTP statuses.
 */
module MediaRoute {

  import opened Common
  import opened Text
  import opened Records
  import BlobLedger

  // ---------------------------------------------------------------- validation

  const MaxVideoBytes: nat := 100 * 1024 * 1024
  const VideoTypes: seq<string> := ["video/mp4", "video/webm", "video/mov", "video/avi", "video/quicktime"]
  const FormatMessage := "Format supporté: MP4, WebM, MOV, AVI uniquement"
  const SizeMessage := "Taille maximale: 100MB"

  datatype Validation = Accepted | Rejected(error: string)

  /** `validateVideoFile`: the type is checked before the size. */
  function ValidateVideoFile(f: FileInfo): (v: Validation)
    ensures v.Accepted? <==> f.mimeType in VideoTypes && f.size <= MaxVideoBytes
    ensures f.mimeType !in VideoTypes ==> v == Rejected(FormatMessage)
    ensures f.mimeType in VideoTypes && f.size > MaxVideoBytes ==> v == Rejected(SizeMessage)
  {
    if f.mimeType !in VideoTypes then Rejected(FormatMessage)
    else if f.size > MaxVideoBytes then Rejected(SizeMessage)
    else Accepted
  }

  // ---------------------------------------------------------------- upload

  /** What the media host reports for a finished upload; fields may be missing. */
  datatype Transfer = Transfer(
    secureUrl: string,
    publicId: BlobId,
    duration: Option<int>,
    width: Option<int>,
    height: Option<int>,
    format: Option<string>,
    bytes: Option<int>)

  /** How an upload stream ends. `TimedOut` is the wrapper's own five-minute timer. */
  datatype HostReply =
    | Delivered(transfer: Transfer)
    | HostError(message: string, httpCode: Option<int>)
    | NoResult
    | TimedOut

  datatype Video = Video(secureUrl: string, publicId: BlobId, duration: int, width: int, height: int, format: string, bytes: int)

  datatype VideoUpload = VideoUploaded(video: Video) | VideoUploadFailed(message: string)

  /** The words both timeout messages start with. */
  const UploadTimeout := "Upload timeout"
  const HostTimeoutMessage := UploadTimeout + " - try with a smaller file or better connection"
  const TooLargeMessage := "File too large"
  const BadFormatMessage := "Invalid file format"
  const GenericUploadMessage := "Upload failed"
  const NoResultMessage := "No result from Cloudinary"
  const WrapperTimeoutMessage := UploadTimeout + " - file too large or slow connection"

  /** `x || 0` on an optional number. */
  function OrZero(o: Option<int>): int {
    if o.Some? then o.value else 0
  }

  /** The message `uploadVideoToCloudinary` rejects with when the host reports an error. */
  function HostErrorMessage(message: string, httpCode: Option<int>): string {
    if Contains(message, "timeout") || httpCode == Some(499) then HostTimeoutMessage
    else if httpCode == Some(413) then TooLargeMessage
    else if Contains(message, "Invalid") then BadFormatMessage
    else GenericUploadMessage
  }

  /** The video a delivered transfer resolves with: missing numbers are 0 and a missing format is "mp4". */
  function UploadedVideo(t: Transfer): (v: Video)
    ensures v.secureUrl == t.secureUrl && v.publicId == t.publicId
    ensures v.format != "" && (Truthy(t.format) ==> v.format == t.format.value)
    ensures v.duration == OrZero(t.duration) && v.width == OrZero(t.width) && v.height == OrZero(t.height)
    ensures v.bytes == OrZero(t.bytes)
  {
    Video(t.secureUrl, t.publicId, OrZero(t.duration), OrZero(t.width), OrZero(t.height),
          OrElse(t.format, "mp4"), OrZero(t.bytes))
  }

  /**
   * `uploadVideoToCloudinary`: a delivered transfer resolves with the missing
   * numbers as 0 and a missing format as "mp4"; every other ending rejects.
   */
  function UploadVideo(h: HostReply): (u: VideoUpload)
    ensures h.Delivered? <==> u.VideoUploaded?
    ensures h.Delivered? ==> u.video == UploadedVideo(h.transfer)
  {
    match h
    case Delivered(t) => VideoUploaded(UploadedVideo(t))
    case HostError(m, code) => VideoUploadFailed(HostErrorMessage(m, code))
    case NoResult => VideoUploadFailed(NoResultMessage)
    case TimedOut => VideoUploadFailed(WrapperTimeoutMessage)
  }

  // ---------------------------------------------------------------- errors

  datatype Classified = Classified(status: int, message: string)

  const TimeoutReply := "Timeout: Fichier trop volumineux ou connexion lente. Essayez avec un fichier plus petit."
  const TooLargeReply := "Fichier trop volumineux. Maximum 100MB."
  const NetworkReply := "Erreur de réseau. Vérifiez votre connexion internet."
  const FormatReply := "Format de fichier non supporté."
  const UploadFailedReply := "Échec du téléversement de la vidéo"

  /**
   * The POST handler's mapping of an error message to a status: the lower-cased
   * message is matched against four groups of words and the first group that
   * matches decides.
   */
  function ClassifyError(message: string): (c: Classified)
    ensures c.status in {400, 408, 413, 500, 502}
  {
    var m := ToLower(message);
    if Contains(m, "timeout") then Classified(408, TimeoutReply)
    else if Contains(m, "too large") || Contains(m, "413") then Classified(413, TooLargeReply)
    else if Contains(m, "network") || Contains(m, "connection") then Classified(502, NetworkReply)
    else if Contains(m, "invalid") || Contains(m, "format") then Classified(400, FormatReply)
    else Classified(500, UploadFailedReply)
  }

  /**
   * The groups are tried in order and the first that matches decides: each
   * status is given exactly when its words occur in the lower-cased message
   * and no earlier group's words do.
   */
  lemma ClassifyErrorOrder(message: string)
    ensures var c := ClassifyError(message); var m := ToLower(message);
      && (c.status == 408 <==> Contains(m, "timeout"))
      && (c.status == 413 <==> !Contains(m, "timeout") && (Contains(m, "too large") || Contains(m, "413")))
      && (c.status == 502 <==> !Contains(m, "timeout") && !Contains(m, "too large") && !Contains(m, "413")
                                && (Contains(m, "network") || Contains(m, "connection")))
      && (c.status == 400 <==> !Contains(m, "timeout") && !Contains(m, "too large") && !Contains(m, "413")
                                && !Contains(m, "network") && !Contains(m, "connection")
                                && (Contains(m, "invalid") || Contains(m, "format")))
      && (c.status == 500 <==> !Contains(m, "timeout") && !Contains(m, "too large") && !Contains(m, "413")
                                && !Contains(m, "network") && !Contains(m, "connection")
                                && !Contains(m, "invalid") && !Contains(m, "format"))
  {
  }

  /** The classification ignores letter case. */
  lemma ClassifyIgnoresCase(message: string)
    ensures ClassifyError(ToLower(message)) == ClassifyError(message)
  {
    ToLowerFixesLowerCase(message);
    ToLowerFixesLowerCase(ToLower(message));
  }

  lemma LowerOccurrence(s: string, pat: string, k: int)
    requires OccursAt(s, pat, k) && IsLowerCase(pat)
    ensures Contains(ToLower(s), pat)
  {
    var t := ToLower(s);
    forall j | 0 <= j < |pat| ensures t[k..k + |pat|][j] == pat[j] {
      assert s[k..k + |pat|][j] == s[k + j];
    }
    assert t[k..k + |pat|] == pat;
    OccurrenceShowsContains(t, pat, k);
  }

  /**
   * What a failed upload turns into at the POST handler: timeouts (the host's
   * or the wrapper's, or HTTP 499) are 408, HTTP 413 is 413, a host message
   * mentioning "Invalid" is 400 and everything else is 500; an upload failure
   * is never reported as a network error.
   */
  lemma UploadFailureStatus(h: HostReply)
    requires !h.Delivered?
    ensures ClassifyError(UploadVideo(h).message).status ==
      match h
      case HostError(m, code) =>
        if Contains(m, "timeout") || code == Some(499) then 408
        else if code == Some(413) then 413
        else if Contains(m, "Invalid") then 400
        else 500
      case NoResult => 500
      case TimedOut => 408
  {
    var msg := UploadVideo(h).message;
    if msg == HostTimeoutMessage || msg == WrapperTimeoutMessage {
      TimeoutWord(msg);
    } else if msg == TooLargeMessage {
      TooLargeStatus();
    } else if msg == BadFormatMessage {
      BadFormatStatus();
    } else if msg == GenericUploadMessage {
      GenericUploadStatus();
    } else {
      NoResultStatus();
    }
  }

  lemma TimeoutWord(msg: string)
    requires msg == HostTimeoutMessage || msg == WrapperTimeoutMessage
    ensures Contains(ToLower(msg), "timeout")
  {
    var head := UploadTimeout;
    assert OccursAt(head, "timeout", 7);
    OccursInPrefix(head, msg[14..], "timeout", 7);
    assert msg == head + msg[14..];
    LowerOccurrence(msg, "timeout", 7);
  }

  lemma TooLargeStatus()
    ensures ClassifyError(TooLargeMessage).status == 413
  {
    TooLargeWords(ToLower(TooLargeMessage));
  }

  lemma TooLargeWords(m: string)
    requires m == "file too large"
    ensures !Contains(m, "timeout") && Contains(m, "too large")
  {
    NotContainsHere(m, "timeout", 5, 1);
    assert m[5..14] == "too large";
    OccurrenceShowsContains(m, "too large", 5);
  }

  lemma BadFormatStatus()
    ensures ClassifyError(BadFormatMessage).status == 400
  {
    BadFormatWords(ToLower(BadFormatMessage));
  }

  lemma BadFormatWords(m: string)
    requires m == "invalid file format"
    ensures !Contains(m, "timeout") && !Contains(m, "too large") && !Contains(m, "413")
    ensures !Contains(m, "network") && !Contains(m, "connection") && Contains(m, "invalid")
  {
    BadFormatEarlyWords(m);
    BadFormatLaterWords(m);
  }

  lemma BadFormatEarlyWords(m: string)
    requires m == "invalid file format"
    ensures !Contains(m, "timeout") && !Contains(m, "too large") && !Contains(m, "413")
  {
    NotContainsAnchored(m, "timeout", 18);
    NotContainsAnchored(m, "too large", 18);
    AbsentHeadShowsNotContains(m, "413");
  }

  lemma BadFormatLaterWords(m: string)
    requires m == "invalid file format"
    ensures !Contains(m, "network") && !Contains(m, "connection") && Contains(m, "invalid")
  {
    NotContainsByNext(m, "network", 'v');
    AbsentHeadShowsNotContains(m, "connection");
    assert m[0..7] == "invalid";
    OccurrenceShowsContains(m, "invalid", 0);
  }

  lemma GenericUploadStatus()
    ensures ClassifyError(GenericUploadMessage).status == 500
  {
    var m := ToLower(GenericUploadMessage);
    GenericUploadEarlyWords(m);
    GenericUploadLaterWords(m);
  }

  lemma GenericUploadEarlyWords(m: string)
    requires m == "upload failed"
    ensures !Contains(m, "timeout") && !Contains(m, "too large") && !Contains(m, "413")
  {
    AbsentHeadShowsNotContains(m, "timeout");
    AbsentHeadShowsNotContains(m, "too large");
    AbsentHeadShowsNotContains(m, "413");
  }

  lemma GenericUploadLaterWords(m: string)
    requires m == "upload failed"
    ensures !Contains(m, "network") && !Contains(m, "connection")
    ensures !Contains(m, "invalid") && !Contains(m, "format")
  {
    AbsentHeadShowsNotContains(m, "network");
    AbsentHeadShowsNotContains(m, "connection");
    NotContainsAnchored(m, "invalid", 9);
    NotContainsHere(m, "format", 7, 1);
  }

  lemma NoResultStatus()
    ensures ClassifyError(NoResultMessage).status == 500
  {
    var m := ToLower(NoResultMessage);
    NoResultEarlyWords(m);
    NoResultNetworkWords(m);
    NoResultFormatWords(m);
  }

  lemma NoResultEarlyWords(m: string)
    requires m == "no result from cloudinary"
    ensures !Contains(m, "timeout") && !Contains(m, "too large") && !Contains(m, "413")
  {
    NotContainsHere(m, "timeout", 8, 1);
    NotContainsHere(m, "too large", 8, 1);
    AbsentHeadShowsNotContains(m, "413");
  }

  lemma NoResultNetworkWords(m: string)
    requires m == "no result from cloudinary"
    ensures !Contains(m, "network") && !Contains(m, "connection")
  {
    NotContainsHere(m, "network", 0, 1);
    NotContainsHere(m, "connection", 15, 1);
  }

  lemma NoResultFormatWords(m: string)
    requires m == "no result from cloudinary"
    ensures !Contains(m, "invalid") && !Contains(m, "format")
  {
    NotContainsAnchored(m, "invalid", 20);
    NotContainsHere(m, "format", 10, 1);
  }

  /** `pat` can start only at `k`, where its character `j` does not match. */
  lemma NotContainsHere(s: string, pat: string, k: int, j: int)
    requires 0 <= j < |pat| && 0 <= k
    requires forall i :: 0 <= i && i + |pat| <= |s| && i != k ==> s[i] != pat[0]
    requires k + j < |s| ==> s[k + j] != pat[j]
    ensures !Contains(s, pat)
  {
    forall i | 0 <= i && i + |pat| <= |s| ensures !OccursAt(s, pat, i) {
      if i == k { assert s[i..i + |pat|][j] == s[k + j]; } else { assert s[i..i + |pat|][0] == s[i]; }
    }
  }

  /** `pat` can start only at `k` or later, where it no longer fits. */
  lemma NotContainsAnchored(s: string, pat: string, k: int)
    requires pat != [] && |s| < k + |pat|
    requires forall i :: 0 <= i < k && i < |s| ==> s[i] != pat[0]
    ensures !Contains(s, pat)
  {
    forall i | 0 <= i && i + |pat| <= |s| ensures !OccursAt(s, pat, i) {
      assert s[i..i + |pat|][0] == s[i];
    }
  }

  /** Wherever `pat`'s first character occurs, the next one is `c`, which is not `pat`'s second. */
  lemma NotContainsByNext(s: string, pat: string, c: char)
    requires |pat| >= 2 && pat[1] != c
    requires forall i :: 0 <= i < |s| && s[i] == pat[0] ==> i + 1 >= |s| || s[i + 1] == c
    ensures !Contains(s, pat)
  {
    forall i | 0 <= i && i + |pat| <= |s| ensures !OccursAt(s, pat, i) {
      assert s[i..i + |pat|][0] == s[i];
      assert s[i..i + |pat|][1] == s[i + 1];
    }
  }

  // ---------------------------------------------------------------- title check

  const MaxRetries: nat := 2

  /** The outcome of query attempt `k`; attempts beyond the given ones are answered. */
  function AttemptOutcome(outcomes: seq<QueryOutcome>, k: nat): QueryOutcome {
    if k < |outcomes| then outcomes[k] else Answered
  }

  /** A failure the check retries: its message mentions "timeout" (case-sensitive). */
  predicate Retryable(o: QueryOutcome) {
    o.QueryFailed? && Contains(o.message, "timeout")
  }

  /** Some record other than `excludeId` already has this title. */
  predicate TitleInUse(docs: map<Id, Media>, title: string, excludeId: Option<Id>) {
    exists k :: k in docs && docs[k].title == title && (excludeId.None? || k != excludeId.value)
  }

  /**
   * Some attempt from `from` on, up to the last allowed one, gets an answer,
   * and every attempt before it failed with a retryable error.
   */
  ghost predicate EventuallyAnswered(outcomes: seq<QueryOutcome>, from: nat) {
    exists j :: from <= j <= MaxRetries && AttemptOutcome(outcomes, j).Answered?
      && forall i :: from <= i < j ==> Retryable(AttemptOutcome(outcomes, i))
  }

  datatype TitleCheck = TitleCheck(taken: bool, queries: nat)

  /**
   * `checkTitleExists(title, excludeId, retryCount)`: queries the trimmed
   * title; a retryable failure is retried while fewer than `MaxRetries`
   * retries were made, and any other or repeated failure answers "not taken".
   */
  function CheckTitleExists(docs: map<Id, Media>, title: string, excludeId: Option<Id>,
                            outcomes: seq<QueryOutcome>, retryCount: nat): (r: TitleCheck)
    requires retryCount <= MaxRetries
    decreases MaxRetries - retryCount
    ensures r.taken ==> TitleInUse(docs, Trim(title), excludeId)
    ensures r.taken <==> TitleInUse(docs, Trim(title), excludeId) && EventuallyAnswered(outcomes, retryCount)
    ensures 1 <= r.queries <= MaxRetries + 1 - retryCount
  {
    match AttemptOutcome(outcomes, retryCount)
    case Answered =>
      TitleCheck(TitleInUse(docs, Trim(title), excludeId), 1)
    case QueryFailed(message) =>
      if retryCount < MaxRetries && Contains(message, "timeout") then
        var rest := CheckTitleExists(docs, title, excludeId, outcomes, retryCount + 1);
        AnsweredAfterRetry(outcomes, retryCount);
        TitleCheck(rest.taken, rest.queries + 1)
      else
        TitleCheck(false, 1)
  }

  /** After a retryable failure, an answer eventually comes exactly when it comes from the next attempt on. */
  lemma AnsweredAfterRetry(outcomes: seq<QueryOutcome>, retryCount: nat)
    requires retryCount < MaxRetries && Retryable(AttemptOutcome(outcomes, retryCount))
    ensures EventuallyAnswered(outcomes, retryCount + 1) <==> EventuallyAnswered(outcomes, retryCount)
  {
    if EventuallyAnswered(outcomes, retryCount + 1) {
      var j :| retryCount + 1 <= j <= MaxRetries && AttemptOutcome(outcomes, j).Answered?
        && forall i :: retryCount + 1 <= i < j ==> Retryable(AttemptOutcome(outcomes, i));
      assert forall i :: retryCount <= i < j ==> Retryable(AttemptOutcome(outcomes, i));
    }
    if EventuallyAnswered(outcomes, retryCount) {
      var j :| retryCount <= j <= MaxRetries && AttemptOutcome(outcomes, j).Answered?
        && forall i :: retryCount <= i < j ==> Retryable(AttemptOutcome(outcomes, i));
      assert j != retryCount;
    }
  }

  /** A failure that is not a timeout makes the check answer "not taken" after one query. */
  lemma FailOpenOnOtherErrors(docs: map<Id, Media>, title: string, excludeId: Option<Id>, outcomes: seq<QueryOutcome>)
    requires |outcomes| > 0 && outcomes[0].QueryFailed? && !Contains(outcomes[0].message, "timeout")
    ensures CheckTitleExists(docs, title, excludeId, outcomes, 0) == TitleCheck(false, 1)
  {
  }

  /** Three timeouts in a row make the check answer "not taken" after three queries. */
  lemma {:induction false} FailOpenAfterRetries(docs: map<Id, Media>, title: string, excludeId: Option<Id>, outcomes: seq<QueryOutcome>)
    requires |outcomes| >= 3 && forall i :: 0 <= i < 3 ==> Retryable(outcomes[i])
    ensures CheckTitleExists(docs, title, excludeId, outcomes, 0) == TitleCheck(false, 3)
  {
    assert AttemptOutcome(outcomes, 0) == outcomes[0];
    assert AttemptOutcome(outcomes, 1) == outcomes[1];
    assert AttemptOutcome(outcomes, 2) == outcomes[2];
  }

  /**
   * Excluding the record being edited: when no other record holds the title,
   * the check never reports it as taken, whatever the store does.
   */
  lemma OwnTitleIsNotAConflict(docs: map<Id, Media>, id: Id, title: string, outcomes: seq<QueryOutcome>)
    requires forall k :: k in docs && docs[k].title == Trim(title) ==> k == id
    ensures !CheckTitleExists(docs, title, Some(id), outcomes, 0).taken
  {
    assert !TitleInUse(docs, Trim(title), Some(id));
  }
}
