/**
 * Bookkeeping between a document collection and the media host: every
 * record names at most one hosted file (its `ref`), and the two stores are
 * consistent when the hosted files are exactly the ones the records name,
 * each named by one record only. A file no record names is an orphan; a name
 * whose file is gone is a dangling reference.
 */
module BlobLedger {

  import opened Common

  function RefSet(o: Option<BlobId>): (r: set<BlobId>)
    ensures o.None? ==> r == {}
    ensures o.Some? ==> r == {o.value}
  {
    if o.Some? then {o.value} else {}
  }

  /** The files the records of `m` name. */
  function Refs<R>(m: map<Id, R>, ref: R -> Option<BlobId>): set<BlobId> {
    set k | k in m && ref(m[k]).Some? :: ref(m[k]).value
  }

  /** No two records name the same file. */
  ghost predicate UniqueRefs<R>(m: map<Id, R>, ref: R -> Option<BlobId>) {
    forall k1, k2 :: k1 in m && k2 in m && k1 != k2 && ref(m[k1]).Some? ==> ref(m[k1]) != ref(m[k2])
  }

  ghost predicate Consistent<R>(m: map<Id, R>, blobs: set<BlobId>, ref: R -> Option<BlobId>) {
    Refs(m, ref) == blobs && UniqueRefs(m, ref)
  }

  lemma RefsMember<R>(m: map<Id, R>, ref: R -> Option<BlobId>, k: Id)
    requires k in m && ref(m[k]).Some?
    ensures ref(m[k]).value in Refs(m, ref)
  {
  }

  /** Adding a record that names a fresh file (or none) keeps the stores consistent. */
  lemma InsertKeeps<R>(m: map<Id, R>, blobs: set<BlobId>, ref: R -> Option<BlobId>, k: Id, r: R)
    requires Consistent(m, blobs, ref) && k !in m
    requires ref(r).Some? ==> ref(r).value !in blobs
    ensures Consistent(m[k := r], blobs + RefSet(ref(r)), ref)
  {
    var m' := m[k := r];
    assert Refs(m', ref) == Refs(m, ref) + RefSet(ref(r)) by {
      forall b | b in Refs(m', ref) ensures b in Refs(m, ref) + RefSet(ref(r)) {
        var j :| j in m' && ref(m'[j]).Some? && ref(m'[j]).value == b;
        if j != k { RefsMember(m, ref, j); }
      }
      forall b | b in Refs(m, ref) ensures b in Refs(m', ref) {
        var j :| j in m && ref(m[j]).Some? && ref(m[j]).value == b;
        assert m'[j] == m[j];
        RefsMember(m', ref, j);
      }
      if ref(r).Some? { RefsMember(m', ref, k); }
    }
    forall k1, k2 | k1 in m' && k2 in m' && k1 != k2 && ref(m'[k1]).Some? ensures ref(m'[k1]) != ref(m'[k2]) {
      if k1 == k {
        if ref(m'[k2]).Some? { RefsMember(m, ref, k2); }
      } else if k2 == k {
        RefsMember(m, ref, k1);
      }
    }
  }

  /** Removing a record together with the file it names keeps the stores consistent. */
  lemma RemoveKeeps<R>(m: map<Id, R>, blobs: set<BlobId>, ref: R -> Option<BlobId>, k: Id)
    requires Consistent(m, blobs, ref) && k in m
    ensures Consistent(m - {k}, blobs - RefSet(ref(m[k])), ref)
  {
    var m' := m - {k};
    assert Refs(m', ref) == Refs(m, ref) - RefSet(ref(m[k])) by {
      forall b | b in Refs(m', ref) ensures b in Refs(m, ref) - RefSet(ref(m[k])) {
        var j :| j in m' && ref(m'[j]).Some? && ref(m'[j]).value == b;
        RefsMember(m, ref, j);
      }
      forall b | b in Refs(m, ref) - RefSet(ref(m[k])) ensures b in Refs(m', ref) {
        var j :| j in m && ref(m[j]).Some? && ref(m[j]).value == b;
        RefsMember(m', ref, j);
      }
    }
  }

  /**
   * Replacing a record, deleting the file the old version named and adding the
   * fresh file the new version names, keeps the stores consistent. Keeping the
   * same name without touching the files is the case `ref(r) == ref(m[k])`.
   */
  lemma ReplaceKeeps<R>(m: map<Id, R>, blobs: set<BlobId>, ref: R -> Option<BlobId>, k: Id, r: R)
    requires Consistent(m, blobs, ref) && k in m
    requires ref(r).Some? ==> ref(r).value !in blobs
    ensures Consistent(m[k := r], blobs - RefSet(ref(m[k])) + RefSet(ref(r)), ref)
  {
    RemoveKeeps(m, blobs, ref, k);
    assert m[k := r] == (m - {k})[k := r];
    InsertKeeps(m - {k}, blobs - RefSet(ref(m[k])), ref, k, r);
  }

  /** Changing a record without changing the file it names keeps the stores consistent. */
  lemma SameRefKeeps<R>(m: map<Id, R>, blobs: set<BlobId>, ref: R -> Option<BlobId>, k: Id, r: R)
    requires Consistent(m, blobs, ref) && k in m && ref(r) == ref(m[k])
    ensures Consistent(m[k := r], blobs, ref)
  {
    RemoveKeeps(m, blobs, ref, k);
    assert m[k := r] == (m - {k})[k := r];
    InsertKeeps(m - {k}, blobs - RefSet(ref(m[k])), ref, k, r);
    if ref(r).Some? {
      RefsMember(m, ref, k);
      assert blobs - RefSet(ref(m[k])) + RefSet(ref(r)) == blobs;
    }
  }

  /** A hosted file that no record names breaks consistency. */
  lemma OrphanBreaks<R>(m: map<Id, R>, blobs: set<BlobId>, ref: R -> Option<BlobId>, b: BlobId)
    requires b in blobs && b !in Refs(m, ref)
    ensures !Consistent(m, blobs, ref)
  {
  }

  /** A record naming a file that is not hosted breaks consistency. */
  lemma DanglingBreaks<R>(m: map<Id, R>, blobs: set<BlobId>, ref: R -> Option<BlobId>, k: Id)
    requires k in m && ref(m[k]).Some? && ref(m[k]).value !in blobs
    ensures !Consistent(m, blobs, ref)
  {
    RefsMember(m, ref, k);
  }

  /** In a consistent state a fresh file is named by no record. */
  lemma FreshIsUnnamed<R>(m: map<Id, R>, blobs: set<BlobId>, ref: R -> Option<BlobId>, b: BlobId)
    requires Consistent(m, blobs, ref) && b !in blobs
    ensures forall k :: k in m ==> ref(m[k]) != Some(b)
  {
    forall k | k in m ensures ref(m[k]) != Some(b) {
      if ref(m[k]) == Some(b) { RefsMember(m, ref, k); }
    }
  }

  /** Once the only record naming `b` names something else, `b` is named by no record. */
  lemma RenamedIsUnnamed<R>(m: map<Id, R>, blobs: set<BlobId>, ref: R -> Option<BlobId>, k: Id, r: R)
    requires Consistent(m, blobs, ref) && k in m && ref(m[k]).Some? && ref(r) != ref(m[k])
    ensures ref(m[k]).value !in Refs(m[k := r], ref)
  {
    var b := ref(m[k]).value;
    var m' := m[k := r];
    forall j | j in m' && ref(m'[j]).Some? ensures ref(m'[j]).value != b {
      if j != k { assert m'[j] == m[j]; }
    }
  }

  /** A fresh file added to consistent stores, with no record naming it, is an orphan. */
  lemma FreshOrphanBreaks<R>(m: map<Id, R>, blobs: set<BlobId>, ref: R -> Option<BlobId>, b: BlobId)
    requires Consistent(m, blobs, ref) && b !in blobs
    ensures !Consistent(m, blobs + {b}, ref)
  {
    FreshIsUnnamed(m, blobs, ref, b);
    OrphanBreaks(m, blobs + {b}, ref, b);
  }
}
