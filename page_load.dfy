/**
 * What the public pages do with a listing fetched from an API route: the
 * three ways the fetch can fail, the message each failure leaves in the
 * page's `error` state, and the list the page may enrich when nothing
 * failed. Each page supplies its own two messages.
 */
module PageLoad {

  import opened Common

  /** The outcome of `fetch(route)` followed by `response.json()`. */
  datatype Payload<T> =
    | NotOk                            // the response status was not 2xx
    | Thrown(message: string)          // `fetch` or `json()` threw an error with this message
    | Body(success: bool, data: Option<seq<T>>)  // the parsed body; `data` is None when it is not an array

  const InvalidDataMessage := "Données invalides reçues de l'API"

  /** The listing a page enriches: present only for `{ success: true, data: [...] }`. */
  function Listing<T>(p: Payload<T>): (r: Option<seq<T>>)
    ensures r.Some? <==> p.Body? && p.success && p.data.Some?
    ensures r.Some? ==> r.value == p.data.value
  {
    if p.Body? && p.success && p.data.Some? then p.data else None
  }

  /**
   * The page's `error` after the fetch: none when the listing is usable;
   * otherwise the message of the error the effect threw, or the page's
   * fallback when that message is empty.
   */
  function LoadError<T>(p: Payload<T>, notOkMessage: string, fallback: string): (r: Option<string>)
    ensures r.None? <==> Listing(p).Some?
    ensures p.NotOk? ==> r == Some(if notOkMessage == "" then fallback else notOkMessage)
    ensures p.Thrown? ==> r == Some(if p.message == "" then fallback else p.message)
    ensures p.Body? && Listing(p).None? ==> r == Some(InvalidDataMessage)
  {
    match p
    case NotOk => Some(OrElse(Some(notOkMessage), fallback))
    case Thrown(m) => Some(OrElse(Some(m), fallback))
    case Body(_, _) => if Listing(p).Some? then None else Some(InvalidDataMessage)
  }

  /** The first `n` items, or all of them when there are fewer (`slice(0, n)`). */
  function Prefix<T>(xs: seq<T>, n: nat): (r: seq<T>)
    ensures |r| == if |xs| < n then |xs| else n
    ensures r <= xs
  {
    if |xs| < n then xs else xs[..n]
  }
}
