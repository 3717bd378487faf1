/** The list rebuilds the data contexts perform on their entity collections:
    `filter`, the `map` that swaps in an updated record by `_id`, and the
    `filter` that drops records by `_id`. Appending is sequence concatenation. */
module Collections {

  /** A record returned by the server, keyed by its `_id`. */
  datatype Entity<T> = Entity(id: string, data: T)

  /** `a` is `b` with some elements left out, the rest in their order. */
  predicate IsSubsequence<T(==,!new)>(a: seq<T>, b: seq<T>)
    decreases |b|
  {
    if a == [] then true
    else if b == [] then false
    else (a[0] == b[0] && IsSubsequence(a[1..], b[1..])) || IsSubsequence(a, b[1..])
  }

  /** `Array.prototype.filter`: the elements that pass `keep`, in their order,
      each as often as in `s`. */
  function Filter<T(==,!new)>(s: seq<T>, keep: T -> bool): (r: seq<T>)
    ensures IsSubsequence(r, s)
    ensures forall x :: multiset(r)[x] == if keep(x) then multiset(s)[x] else 0
    ensures forall x :: x in r <==> x in s && keep(x)
    ensures |r| <= |s|
  {
    if s == [] then []
    else
      assert s == [s[0]] + s[1..];
      var rest := Filter(s[1..], keep);
      if keep(s[0]) then
        assert ([s[0]] + rest)[1..] == rest;
        [s[0]] + rest
      else rest
  }

  /** `list.map(e => e._id === id ? x : e)`: every record with key `id` is
      replaced by `x`, every other position keeps its record. */
  function ReplaceById<T>(s: seq<Entity<T>>, id: string, x: Entity<T>): (r: seq<Entity<T>>)
    ensures |r| == |s|
    ensures forall i :: 0 <= i < |s| ==> r[i] == if s[i].id == id then x else s[i]
  {
    if s == [] then []
    else [if s[0].id == id then x else s[0]] + ReplaceById(s[1..], id, x)
  }

  /** `list.filter(e => e._id !== id)`. */
  function RemoveById<T(==,!new)>(s: seq<Entity<T>>, id: string): (r: seq<Entity<T>>)
    ensures IsSubsequence(r, s)
    ensures forall e :: multiset(r)[e] == if e.id == id then 0 else multiset(s)[e]
    ensures forall e :: e in r ==> e.id != id
  {
    Filter(s, (e: Entity<T>) => e.id != id)
  }

  /** No two records share an `_id`. The contexts do not enforce this; the
      lemmas below say which rebuilds keep it. */
  predicate UniqueIds<T>(s: seq<Entity<T>>) {
    forall i, j :: 0 <= i < j < |s| ==> s[i].id != s[j].id
  }

  predicate HasId<T>(s: seq<Entity<T>>, id: string) {
    exists i :: 0 <= i < |s| && s[i].id == id
  }

  /** Deleting keeps ids unique. */
  lemma {:induction false} RemoveKeepsUnique<T(!new)>(s: seq<Entity<T>>, id: string)
    requires UniqueIds(s)
    ensures UniqueIds(RemoveById(s, id))
  {
    var r := RemoveById(s, id);
    forall i, j | 0 <= i < j < |r| ensures r[i].id != r[j].id {
      if r[i].id == r[j].id {
        SubsequenceIds(r, s, i, j);
      }
    }
  }

  /** Two distinct positions of a subsequence come from two distinct positions
      of the sequence, in the same order. */
  lemma {:induction false} SubsequenceIds<T(!new)>(a: seq<Entity<T>>, b: seq<Entity<T>>, i: int, j: int)
    requires IsSubsequence(a, b) && 0 <= i < j < |a|
    ensures exists k, l :: 0 <= k < l < |b| && b[k] == a[i] && b[l] == a[j]
    decreases |b|
  {
    assert a != [] && b != [];
    if a[0] == b[0] && IsSubsequence(a[1..], b[1..]) {
      if i == 0 {
        SubsequenceHas(a[1..], b[1..], j - 1);
        var l :| 0 <= l < |b| - 1 && b[1..][l] == a[1..][j - 1];
        assert b[0] == a[i] && b[l + 1] == a[j];
      } else {
        SubsequenceIds(a[1..], b[1..], i - 1, j - 1);
        var k, l :| 0 <= k < l < |b| - 1 && b[1..][k] == a[1..][i - 1] && b[1..][l] == a[1..][j - 1];
        assert b[k + 1] == a[i] && b[l + 1] == a[j];
      }
    } else {
      SubsequenceIds(a, b[1..], i, j);
      var k, l :| 0 <= k < l < |b| - 1 && b[1..][k] == a[i] && b[1..][l] == a[j];
      assert b[k + 1] == a[i] && b[l + 1] == a[j];
    }
  }

  lemma {:induction false} SubsequenceHas<T(!new)>(a: seq<T>, b: seq<T>, i: int)
    requires IsSubsequence(a, b) && 0 <= i < |a|
    ensures exists k :: 0 <= k < |b| && b[k] == a[i]
    decreases |b|
  {
    assert b != [];
    if a[0] == b[0] && IsSubsequence(a[1..], b[1..]) {
      if i > 0 {
        SubsequenceHas(a[1..], b[1..], i - 1);
        var k :| 0 <= k < |b| - 1 && b[1..][k] == a[1..][i - 1];
        assert b[k + 1] == a[i];
      } else {
        assert b[0] == a[i];
      }
    } else {
      SubsequenceHas(a, b[1..], i);
      var k :| 0 <= k < |b| - 1 && b[1..][k] == a[i];
      assert b[k + 1] == a[i];
    }
  }

  /** Updating with a record that carries the same `_id` keeps ids unique. */
  lemma ReplaceKeepsUnique<T(!new)>(s: seq<Entity<T>>, id: string, x: Entity<T>)
    requires UniqueIds(s) && x.id == id
    ensures UniqueIds(ReplaceById(s, id, x))
  {
    var r := ReplaceById(s, id, x);
    forall i, j | 0 <= i < j < |r| ensures r[i].id != r[j].id {
      assert r[i].id == s[i].id && r[j].id == s[j].id;
    }
  }

  /** With unique ids, a delete removes exactly one record when the id is
      present and none otherwise. */
  lemma {:induction false} RemoveUniqueDropsOne<T(!new)>(s: seq<Entity<T>>, id: string)
    requires UniqueIds(s)
    ensures |RemoveById(s, id)| == if HasId(s, id) then |s| - 1 else |s|
  {
    if s != [] {
      var t := s[1..];
      assert UniqueIds(t) by {
        forall i, j | 0 <= i < j < |t| ensures t[i].id != t[j].id {
          assert t[i] == s[i + 1] && t[j] == s[j + 1];
        }
      }
      RemoveUniqueDropsOne(t, id);
      assert s == [s[0]] + t;
      assert RemoveById(s, id) == if s[0].id != id then [s[0]] + RemoveById(t, id) else RemoveById(t, id);
      if s[0].id == id {
        assert HasId(s, id);
        assert !HasId(t, id) by {
          forall k | 0 <= k < |t| ensures t[k].id != id {
            assert t[k] == s[k + 1];
          }
        }
      } else {
        assert HasId(s, id) <==> HasId(t, id) by {
          if HasId(s, id) {
            var k :| 0 <= k < |s| && s[k].id == id;
            assert k > 0 && t[k - 1] == s[k];
          }
          if HasId(t, id) {
            var k :| 0 <= k < |t| && t[k].id == id;
            assert s[k + 1] == t[k];
          }
        }
      }
    }
  }

  /** Deleting an id after updating it with a record of the same id leaves
      the same list as deleting it straight away. */
  lemma {:induction false} RemoveAfterReplace<T(!new)>(s: seq<Entity<T>>, id: string, x: Entity<T>)
    requires x.id == id
    ensures RemoveById(ReplaceById(s, id, x), id) == RemoveById(s, id)
  {
    if s != [] {
      var r := ReplaceById(s, id, x);
      RemoveAfterReplace(s[1..], id, x);
      assert r == [r[0]] + ReplaceById(s[1..], id, x);
      assert s == [s[0]] + s[1..];
      assert r[0].id == id <==> s[0].id == id;
    }
  }
}
