/** The document-store operations the core issues, on a collection held as a
    sequence in natural (insertion) order: `find_one` and `update_one` act on
    the first document matching a filter, `delete_many` on all of them, and
    `insert_one` appends. */
module Store {
  import opened Primitives

  /** The position of the first document the filter matches (`find_one`). */
  function FirstMatch<T>(docs: seq<T>, filter: T -> bool): (r: Option<nat>)
    ensures r.Some? ==> r.value < |docs| && filter(docs[r.value])
    ensures r.Some? ==> forall k :: 0 <= k < r.value ==> !filter(docs[k])
    ensures r.None? <==> forall k :: 0 <= k < |docs| ==> !filter(docs[k])
  {
    if |docs| == 0 then None
    else if filter(docs[0]) then Some(0)
    else match FirstMatch(docs[1..], filter)
      case None => None
      case Some(j) => Some(j + 1)
  }

  /** `update_one` without upsert: the `$set` is applied to the first match only;
      with no match nothing changes. */
  function UpdateOne<T>(docs: seq<T>, filter: T -> bool, update: T -> T): (r: seq<T>)
    ensures |r| == |docs|
    ensures FirstMatch(docs, filter).None? ==> r == docs
    ensures FirstMatch(docs, filter).Some? ==>
      forall k :: 0 <= k < |docs| ==> r[k] == if k == FirstMatch(docs, filter).value then update(docs[k]) else docs[k]
  {
    match FirstMatch(docs, filter)
    case None => docs
    case Some(j) => docs[j := update(docs[j])]
  }

  /** `delete_many`: drops every matching document and keeps the rest in order. */
  function DeleteMany<T(==,!new)>(docs: seq<T>, filter: T -> bool): (r: seq<T>)
    ensures |r| <= |docs|
    ensures forall k :: 0 <= k < |r| ==> !filter(r[k])
    ensures forall d :: multiset(r)[d] == if filter(d) then 0 else multiset(docs)[d]
  {
    if |docs| == 0 then []
    else
      assert docs == [docs[0]] + docs[1..];
      if filter(docs[0]) then DeleteMany(docs[1..], filter)
      else [docs[0]] + DeleteMany(docs[1..], filter)
  }

  /** `delete_many` keeps the surviving documents in their original order. */
  lemma {:induction false} DeleteManyAppend<T(!new)>(a: seq<T>, b: seq<T>, filter: T -> bool)
    ensures DeleteMany(a + b, filter) == DeleteMany(a, filter) + DeleteMany(b, filter)
  {
    if |a| > 0 {
      assert (a + b)[1..] == a[1..] + b;
      DeleteManyAppend(a[1..], b, filter);
    } else {
      assert a + b == b;
    }
  }

  /** A `delete_many` that matches nothing leaves the collection as it was. */
  lemma {:induction false} DeleteManyNoMatch<T(!new)>(docs: seq<T>, filter: T -> bool)
    requires forall k :: 0 <= k < |docs| ==> !filter(docs[k])
    ensures DeleteMany(docs, filter) == docs
  {
    if |docs| > 0 {
      DeleteManyNoMatch(docs[1..], filter);
      assert docs == [docs[0]] + docs[1..];
    }
  }

  /** Every surviving document was in the collection before. */
  lemma DeleteManySubset<T(!new)>(docs: seq<T>, filter: T -> bool)
    ensures forall k :: 0 <= k < |DeleteMany(docs, filter)| ==> DeleteMany(docs, filter)[k] in docs
  {
    var r := DeleteMany(docs, filter);
    forall k | 0 <= k < |r| ensures r[k] in docs {
      assert r[k] in multiset(r);
    }
  }
}
