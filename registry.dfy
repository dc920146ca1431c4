/**
 * The sequence operations the customer store is built from: the CPF
 * lookup (`Array.prototype.find` / `some`), uniqueness of keys, and
 * `Array.prototype.splice` as the delete handler calls it.
 */
module Registry {
  import opened Wrappers

  /** A CPF (Brazilian taxpayer number), compared as an exact string. */
  type Cpf = string

  predicate Unique<T(==)>(s: seq<T>)
  {
    forall i, j :: 0 <= i < j < |s| ==> s[i] != s[j]
  }

  /** The position of the first CPF equal to `cpf`, or None when there is none. */
  function FirstIndex(cpfs: seq<Cpf>, cpf: Cpf): (r: Option<nat>)
    ensures r.None? <==> cpf !in cpfs
    ensures r.Some? ==> r.value < |cpfs| && cpfs[r.value] == cpf
    ensures r.Some? ==> forall j :: 0 <= j < r.value ==> cpfs[j] != cpf
  {
    if cpfs == [] then None
    else if cpfs[0] == cpf then Some(0)
    else
      match FirstIndex(cpfs[1..], cpf)
      case None => None
      case Some(k) => Some(k + 1)
  }

  /** With unique keys, the first match is the only match. */
  lemma UniqueFirstIndex(cpfs: seq<Cpf>, i: nat)
    requires Unique(cpfs) && i < |cpfs|
    ensures FirstIndex(cpfs, cpfs[i]) == Some(i)
  {
  }

  /** Appending a key that is not yet present keeps the keys unique. */
  lemma UniqueAppend(cpfs: seq<Cpf>, cpf: Cpf)
    requires Unique(cpfs) && cpf !in cpfs
    ensures Unique(cpfs + [cpf])
  {
    forall i, j | 0 <= i < j < |cpfs| + 1
      ensures (cpfs + [cpf])[i] != (cpfs + [cpf])[j]
    {
      if j == |cpfs| {
        assert cpfs[i] in cpfs;
      }
    }
  }

  function Min(a: int, b: int): int { if a <= b then a else b }

  function Max(a: int, b: int): int { if a <= b then b else a }

  /**
   * What is left of `s` after `s.splice(start, deleteCount)` with an integer
   * start: a negative start counts from the end, both start and count are
   * clamped to the array.
   */
  function Splice<T>(s: seq<T>, start: int, deleteCount: int): seq<T>
  {
    var from := if start < 0 then Max(|s| + start, 0) else Min(start, |s|);
    var count := Min(Max(deleteCount, 0), |s| - from);
    s[..from] + s[from + count..]
  }

  /**
   * The start `splice` uses when handed an object: ToNumber of a plain
   * object is NaN, and ToIntegerOrInfinity turns NaN into 0.
   */
  const ObjectAsStart: int := 0

  /** The intended removal: `s` without its element at position `k`. */
  function RemoveAt<T>(s: seq<T>, k: nat): (r: seq<T>)
    requires k < |s|
    ensures |r| == |s| - 1
    ensures forall j :: 0 <= j < |r| ==> r[j] == s[if j < k then j else j + 1]
  {
    s[..k] + s[k + 1..]
  }

  /** The intended removal takes away one occurrence of the removed element and nothing else. */
  lemma RemoveAtMultiset<T>(s: seq<T>, k: nat)
    requires k < |s|
    ensures multiset(RemoveAt(s, k)) + multiset{s[k]} == multiset(s)
  {
    assert s == s[..k] + [s[k]] + s[k + 1..];
  }

  /** Splicing one element out at a valid position is the intended removal. */
  lemma SpliceOneIsRemoveAt<T>(s: seq<T>, k: nat)
    requires k < |s|
    ensures Splice(s, k, 1) == RemoveAt(s, k)
  {
  }

  /** Splicing with an object as start drops the first element, whatever the object. */
  lemma SpliceByObjectDropsFirst<T>(s: seq<T>)
    requires s != []
    ensures Splice(s, ObjectAsStart, 1) == s[1..]
  {
    assert s[..0] + s[1..] == s[1..];
  }

  /**
   * With distinct elements, splicing by object removes the element at `k`
   * exactly when `k` is the first position.
   */
  lemma SpliceByObjectRemovesIffFirst<T>(s: seq<T>, k: nat)
    requires Unique(s) && k < |s|
    ensures Splice(s, ObjectAsStart, 1) == RemoveAt(s, k) <==> k == 0
  {
    SpliceByObjectDropsFirst(s);
    if k != 0 {
      assert RemoveAt(s, k)[0] == s[0];
      assert s[1..][0] == s[1];
    }
  }

  /**
   * With unique keys, the key at `k` is still present after splicing by
   * object exactly when `k` is not the first position.
   */
  lemma SpliceByObjectKeepsKeyIffNotFirst(cpfs: seq<Cpf>, k: nat)
    requires Unique(cpfs) && k < |cpfs|
    ensures cpfs[k] in Splice(cpfs, ObjectAsStart, 1) <==> k != 0
  {
    SpliceByObjectDropsFirst(cpfs);
    if k == 0 {
      forall j | 0 <= j < |cpfs| - 1
        ensures cpfs[1..][j] != cpfs[0]
      {
        assert cpfs[1..][j] == cpfs[j + 1];
      }
    } else {
      assert cpfs[1..][k - 1] == cpfs[k];
    }
  }

  /** The intended removal takes the key at `k` out of a store with unique keys. */
  lemma RemoveAtDropsKey(cpfs: seq<Cpf>, k: nat)
    requires Unique(cpfs) && k < |cpfs|
    ensures cpfs[k] !in RemoveAt(cpfs, k)
    ensures Unique(RemoveAt(cpfs, k))
  {
    var r := RemoveAt(cpfs, k);
    forall j | 0 <= j < |r|
      ensures r[j] != cpfs[k]
    {
      assert r[j] == cpfs[if j < k then j else j + 1];
    }
    forall i, j | 0 <= i < j < |r|
      ensures r[i] != r[j]
    {
      var i', j' := if i < k then i else i + 1, if j < k then j else j + 1;
      assert r[i] == cpfs[i'] && r[j] == cpfs[j'];
    }
  }

  /** The discrepancy on a two-entry store: deleting the second CPF keeps it and drops the first. */
  lemma DeleteSecondKeepsIt()
    ensures FirstIndex(["111", "222"], "222") == Some(1)
    ensures Splice(["111", "222"], ObjectAsStart, 1) == ["222"]
    ensures RemoveAt(["111", "222"], 1) == ["111"]
  {
    var s: seq<Cpf> := ["111", "222"];
    assert s[0] != "222";
    assert s[1..] == ["222"];
    SpliceByObjectDropsFirst(s);
  }
}
