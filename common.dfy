/**
 * Shared vocabulary of the portfolio back end and its pages: optional values,
 * identifiers, multipart form values, the JSON replies the API routes send,
 * and the outcomes of calls into the document store and the media host.
 */
module Common {

  datatype Option<T> = None | Some(value: T)

  /** Document identifiers assigned by the document store. */
  type Id = nat

  /** Public identifiers of files kept by the media host. */
  type BlobId = string

  /** Server or client timestamps, in milliseconds. */
  type Timestamp = int

  /** JavaScript truthiness of an optional string field: a missing value and "" are falsy. */
  predicate Truthy(o: Option<string>) {
    o.Some? && o.value != ""
  }

  /** `a || b` on optional strings. */
  function OrElse(o: Option<string>, fallback: string): (r: string)
    ensures Truthy(o) ==> r == o.value
    ensures !Truthy(o) ==> r == fallback
  {
    if Truthy(o) then o.value else fallback
  }

  /** The metadata of an uploaded file (`File.type` and `File.size`). */
  datatype FileInfo = FileInfo(mimeType: string, size: nat)

  /** What `formData.get(name)` yields: nothing, a string, or a file. */
  datatype FormValue = Missing | Text(text: string) | Attached(file: FileInfo)

  /** JavaScript truthiness of a form value: a File object is always truthy. */
  predicate FormTruthy(v: FormValue) {
    match v
    case Missing => false
    case Text(s) => s != ""
    case Attached(_) => true
  }

  /**
   * The JSON body and HTTP status of a route reply. `success` is absent in
   * the replies that do not carry that field.
   */
  datatype Reply<T> = Reply(status: int, success: Option<bool>, error: Option<string>, data: Option<T>)

  function Failure<T>(status: int, message: string): (r: Reply<T>)
    ensures r.status == status && r.error == Some(message) && r.data.None?
  {
    Reply(status, Some(false), Some(message), None)
  }

  /** An error reply whose body is `{ error }` only. */
  function Refusal<T>(status: int, message: string): (r: Reply<T>)
    ensures r.status == status && r.error == Some(message) && r.success.None?
  {
    Reply(status, None, Some(message), None)
  }

  /** A reply whose body is `{ message }` only (or empty). */
  function Notice<T>(status: int): (r: Reply<T>)
    ensures r.status == status && r.error.None? && r.data.None? && r.success.None?
  {
    Reply(status, None, None, None)
  }

  function Success<T>(status: int, data: T): (r: Reply<T>)
    ensures r.status == status && r.data == Some(data) && r.error.None?
  {
    Reply(status, Some(true), None, Some(data))
  }

  /** A stored record together with the identifier the store gave it. */
  datatype Saved<T> = Saved(id: Id, record: T)

  /** Outcome of a document write (addDoc, updateDoc, deleteDoc). */
  datatype StoreOutcome = Stored | StoreFailed(message: string)

  /** Outcome of a collection query; an answered query sees the current documents. */
  datatype QueryOutcome = Answered | QueryFailed(message: string)

  /** What the media host returns for a successful upload. */
  datatype Upload = Upload(secureUrl: string, publicId: BlobId)

  datatype UploadOutcome = Uploaded(upload: Upload) | UploadFailed(message: string)

  /** A freshly allocated public id: non-empty and not yet in the blob store. */
  predicate FreshBlob(p: BlobId, blobs: set<BlobId>) {
    p != "" && p !in blobs
  }

  /** The blob store after a best-effort deletion of `p`. */
  function Destroyed(blobs: set<BlobId>, p: BlobId, ok: bool): (r: set<BlobId>)
    ensures ok ==> p !in r && r + {p} == blobs + {p}
    ensures !ok ==> r == blobs
  {
    if ok then blobs - {p} else blobs
  }

  /** The `isAdmin=true` query-string gate of the administrative routes. */
  predicate IsAdmin(param: Option<string>) {
    param == Some("true")
  }

  /**
   * A document collection of `R` records, the files the media host keeps, and
   * the next identifier the collection hands out.
   */
  datatype Stores<R> = Stores(docs: map<Id, R>, blobs: set<BlobId>, nextId: Id)

  /** The collection never hands out an identifier twice. */
  predicate Issued<R>(s: Stores<R>) {
    forall k :: k in s.docs ==> k < s.nextId
  }

  /** A handler's reply and the stores after it. */
  datatype Handled<T, R> = Handled(reply: Reply<T>, after: Stores<R>)
}
