/**
 * The id-keyed list updates every reducer is written with:
 *   `list.map(x => x.id === id ? f(x) : x)`,
 *   `list.map(x => x.id === v.id ? v : x)`,
 *   `list.filter(x => x.id !== id)`,
 * and `[...list, v]`. The record's id is read through `key`.
 */
module Records {
  import opened Lists

  /** `s.map(x => key(x) === id ? f(x) : x)`. */
  function UpdateWhere<T>(s: seq<T>, key: T -> string, id: string, f: T -> T): (r: seq<T>)
    ensures |r| == |s|
    ensures forall i :: 0 <= i < |s| ==> r[i] == if key(s[i]) == id then f(s[i]) else s[i]
  {
    Map(s, x => if key(x) == id then f(x) else x)
  }

  /** The update `_ => v`. */
  function Constant<T>(v: T): T -> T
  {
    _ => v
  }

  /** `s.map(x => key(x) === key(v) ? v : x)`. */
  function ReplaceWhere<T>(s: seq<T>, key: T -> string, v: T): (r: seq<T>)
    ensures |r| == |s|
    ensures forall i :: 0 <= i < |s| ==> r[i] == if key(s[i]) == key(v) then v else s[i]
  {
    UpdateWhere(s, key, key(v), Constant(v))
  }

  /** The test `x => key(x) !== id`. */
  function KeyIsNot<T>(key: T -> string, id: string): T -> bool
  {
    x => key(x) != id
  }

  /** `s.filter(x => key(x) !== id)`. */
  function RemoveWhere<T>(s: seq<T>, key: T -> string, id: string): (r: seq<T>)
    ensures forall x | x in r :: x in s && key(x) != id
    ensures forall x | x in s && key(x) != id :: x in r
    ensures IsSubsequence(r, s)
    ensures forall x | x in s :: multiset(r)[x] == if key(x) != id then multiset(s)[x] else 0
  {
    FilterIsSubsequence(s, KeyIsNot(key, id));
    FilterCounts(s, KeyIsNot(key, id));
    Filter(s, KeyIsNot(key, id))
  }

  /** No record of `s` has the id `id`. */
  predicate Fresh<T>(s: seq<T>, key: T -> string, id: string)
  {
    forall i :: 0 <= i < |s| ==> key(s[i]) != id
  }

  /** Removing an id no record has changes nothing. */
  lemma RemoveAbsent<T>(s: seq<T>, key: T -> string, id: string)
    requires Fresh(s, key, id)
    ensures RemoveWhere(s, key, id) == s
  {
    FilterKeepsAll(s, KeyIsNot(key, id));
  }

  /** Appending a record with a fresh id and then removing that id gives back the list. */
  lemma AppendThenRemove<T>(s: seq<T>, key: T -> string, v: T)
    requires Fresh(s, key, key(v))
    ensures RemoveWhere(s + [v], key, key(v)) == s
  {
    RemoveWhereConcat(s, [v], key, key(v));
    RemoveAbsent(s, key, key(v));
    RemoveWhereDropsAll([v], key, key(v));
  }

  lemma RemoveWhereConcat<T>(a: seq<T>, b: seq<T>, key: T -> string, id: string)
    ensures RemoveWhere(a + b, key, id) == RemoveWhere(a, key, id) + RemoveWhere(b, key, id)
  {
    FilterConcat(a, b, KeyIsNot(key, id));
  }

  lemma RemoveWhereIdempotent<T>(s: seq<T>, key: T -> string, id: string)
    ensures RemoveWhere(RemoveWhere(s, key, id), key, id) == RemoveWhere(s, key, id)
  {
    FilterIdempotent(s, KeyIsNot(key, id));
  }

  /** Removing the id every record has leaves nothing. */
  lemma RemoveWhereDropsAll<T>(s: seq<T>, key: T -> string, id: string)
    requires forall i :: 0 <= i < |s| ==> key(s[i]) == id
    ensures RemoveWhere(s, key, id) == []
  {
    FilterDropsAll(s, KeyIsNot(key, id));
  }

  lemma ReplaceWhereIdempotent<T>(s: seq<T>, key: T -> string, v: T)
    ensures ReplaceWhere(ReplaceWhere(s, key, v), key, v) == ReplaceWhere(s, key, v)
  {
  }

  /**
   * An update that keeps ids and whose second application changes nothing
   * is idempotent on the whole list.
   */
  lemma UpdateWhereIdempotent<T>(s: seq<T>, key: T -> string, id: string, f: T -> T)
    requires forall x :: key(x) == id ==> key(f(x)) == id && f(f(x)) == f(x)
    ensures UpdateWhere(UpdateWhere(s, key, id, f), key, id, f) == UpdateWhere(s, key, id, f)
  {
  }

  /** Two updates of the same id, where the first keeps ids, are one composed update. */
  lemma UpdateWhereCompose<T>(s: seq<T>, key: T -> string, id: string, f: T -> T, g: T -> T, h: T -> T)
    requires forall x :: key(x) == id ==> key(f(x)) == id && g(f(x)) == h(x)
    ensures UpdateWhere(UpdateWhere(s, key, id, f), key, id, g) == UpdateWhere(s, key, id, h)
  {
  }

  /** Updating an id no record has changes nothing. */
  lemma UpdateAbsent<T>(s: seq<T>, key: T -> string, id: string, f: T -> T)
    requires Fresh(s, key, id)
    ensures UpdateWhere(s, key, id, f) == s
  {
  }
}
