/**
 * The stored entities of the portfolio (the shapes of lib/types.ts and the
 * records the subscription, newsletter and contact routes write). The store
 * keeps each record under its identifier; the pages see it as a `Keyed` row.
 */
module Records {

  import opened Common

  /** A portfolio project; `softwares` holds names from the software catalog. */
  datatype Project = Project(
    title: string,
    description: string,
    image: Option<string>,
    softwares: seq<string>,
    createdAt: Option<Timestamp>,
    updatedAt: Option<Timestamp>)

  /**
   * A professional experience. The image is optional because an update that
   * omits the image field stores null there.
   */
  datatype Experience = Experience(name: string, subject: string, image: Option<string>, verified: bool)

  /** A hosted video and the metadata the media host reported for it. */
  datatype Media = Media(
    title: string,
    description: string,
    src: string,
    category: string,
    duration: int,
    views: int,
    publicId: Option<BlobId>,
    width: int,
    height: int,
    format: string,
    fileSize: int,
    createdAt: Option<Timestamp>,
    updatedAt: Option<Timestamp>)

  /** A curriculum vitae PDF. */
  datatype Vitae = Vitae(
    name: string,
    file: string,
    publicId: Option<BlobId>,
    createdAt: Option<Timestamp>,
    updatedAt: Option<Timestamp>)

  /** An entry of the `subscribe` collection. */
  datatype Subscriber = Subscriber(email: string, createdAt: Timestamp, updatedAt: Option<Timestamp>)

  /** An entry of the `newsletter` collection. */
  datatype Signup = Signup(email: string, subscribedAt: Timestamp)

  /** The seven fields of a contact request. */
  datatype ContactFields = ContactFields(
    name: string,
    email: string,
    phone: string,
    interest: string,
    budget: string,
    country: string,
    message: string)

  /** An entry of the `messages` collection. */
  datatype Message = Message(fields: ContactFields, createdAt: Timestamp)

  /** A record as the pages receive it: `{ id, ...data }`. */
  datatype Keyed<T> = Keyed(id: Id, item: T)
}
