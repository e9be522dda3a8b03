/**
 * How the routes name files on the media host. An upload into folder F
 * returns a public id `F/<stem>` and a delivery URL whose last path segment
 * is `<stem>.<extension>`; the routes that keep only the URL recover the
 * public id from that segment.
 */
module MediaHost {

  import opened Text

  /** `url.split("/").pop().split(".")[0]`: the stem of the last path segment. */
  function FileStem(url: string): (r: string)
    ensures '/' !in r && '.' !in r && |r| <= |url|
  {
    BeforeFirst(LastSegment(url, '/'), '.')
  }

  /**
   * The CV route's variant: the last segment is cut at the first ',' (which
   * starts a transformation list) before the cut at the first '.'.
   */
  function RawFileStem(url: string): (r: string)
    ensures '/' !in r && ',' !in r && '.' !in r
  {
    var r0 := BeforeFirst(BeforeFirst(LastSegment(url, '/'), ','), '.');
    assert forall c :: c in r0 ==> c in BeforeFirst(LastSegment(url, '/'), ',');
    r0
  }

  /** A delivery URL `base/name.ext`. */
  function DeliveryUrl(base: string, name: string, ext: string): string {
    base + "/" + name + "." + ext
  }

  /** The stem of a delivery URL is the file name it was built from. */
  lemma FileStemOfDeliveryUrl(base: string, name: string, ext: string)
    requires '/' !in name && '.' !in name && '/' !in ext
    ensures FileStem(DeliveryUrl(base, name, ext)) == name
  {
    var tail := name + "." + ext;
    assert DeliveryUrl(base, name, ext) == base + ['/'] + tail;
    assert '/' !in tail by {
      forall i | 0 <= i < |tail| ensures tail[i] != '/' {
        if i < |name| { assert tail[i] == name[i]; }
        else if i > |name| { assert tail[i] == ext[i - |name| - 1]; }
      }
    }
    LastSegmentOfJoin(base, '/', tail);
    assert tail == name + ['.'] + ext;
    BeforeFirstOfJoin(name, '.', ext);
  }

  /** The CV variant recovers the file name as well when the name holds no ','. */
  lemma RawFileStemOfDeliveryUrl(base: string, name: string, ext: string)
    requires '/' !in name && '.' !in name && ',' !in name && '/' !in ext
    ensures RawFileStem(DeliveryUrl(base, name, ext)) == name
  {
    var tail := name + "." + ext;
    assert DeliveryUrl(base, name, ext) == base + ['/'] + tail;
    assert '/' !in tail by {
      forall i | 0 <= i < |tail| ensures tail[i] != '/' {
        if i < |name| { assert tail[i] == name[i]; }
        else if i > |name| { assert tail[i] == ext[i - |name| - 1]; }
      }
    }
    LastSegmentOfJoin(base, '/', tail);
    var head := name + ".";
    assert ',' !in head by {
      forall i | 0 <= i < |head| ensures head[i] != ',' {
        if i < |name| { assert head[i] == name[i]; }
      }
    }
    assert tail == head + ext;
    BeforeFirstSkips(head, ext, ',');
    assert BeforeFirst(tail, ',') == name + ['.'] + BeforeFirst(ext, ',');
    BeforeFirstOfJoin(name, '.', BeforeFirst(ext, ','));
  }

  /**
   * An upload into `folder` whose public id is the folder followed by the
   * stem of its URL, as the host names files it generates: the routes that
   * keep only the URL can then find the file again.
   */
  predicate Locates(folder: string, secureUrl: string, publicId: string) {
    FileStem(secureUrl) != "" && publicId == folder + "/" + FileStem(secureUrl)
  }

  /** A delivery URL built from a file name locates the file of that name in the folder. */
  lemma LocatesDeliveryUrl(folder: string, base: string, name: string, ext: string)
    requires name != "" && '/' !in name && '.' !in name && '/' !in ext
    ensures Locates(folder, DeliveryUrl(base, name, ext), folder + "/" + name)
  {
    FileStemOfDeliveryUrl(base, name, ext);
  }
}
