/**
 * A Convex table as the model sees it: the documents in creation order,
 * each with the id Convex assigned when it was inserted.
 */
module Tables {
  import opened Wrappers

  type Id = nat

  datatype Doc<T> = Doc(id: Id, value: T)

  /** Ids grow along the table: documents stay in creation order and no id occurs twice. */
  ghost predicate Increasing<T>(docs: seq<Doc<T>>) {
    forall i, j :: 0 <= i < j < |docs| ==> docs[i].id < docs[j].id
  }

  /** Every id in the table is below `bound`. */
  ghost predicate Below<T>(docs: seq<Doc<T>>, bound: nat) {
    forall i :: 0 <= i < |docs| ==> docs[i].id < bound
  }

  /** The ids of the table, in order. */
  function Ids<T>(docs: seq<Doc<T>>): (r: seq<Id>)
    ensures |r| == |docs| && forall i :: 0 <= i < |docs| ==> r[i] == docs[i].id
  {
    seq(|docs|, i requires 0 <= i < |docs| => docs[i].id)
  }

  predicate Has<T>(docs: seq<Doc<T>>, id: Id) {
    Get(docs, id).Some?
  }

  /** `ctx.db.get(id)`: the document with that id, or null. */
  function Get<T>(docs: seq<Doc<T>>, id: Id): (r: Option<T>)
    ensures r.Some? <==> exists i :: 0 <= i < |docs| && docs[i].id == id
    ensures r.Some? ==> exists i :: 0 <= i < |docs| && docs[i] == Doc(id, r.value)
  {
    if docs == [] then None
    else if docs[0].id == id then Some(docs[0].value)
    else Get(docs[1..], id)
  }

  /** Replaces the value of the document with that id; the order and the ids are kept. */
  function Set<T>(docs: seq<Doc<T>>, id: Id, v: T): (r: seq<Doc<T>>)
    ensures |r| == |docs|
    ensures forall i :: 0 <= i < |docs| ==>
      r[i].id == docs[i].id && r[i].value == (if docs[i].id == id then v else docs[i].value)
  {
    if docs == [] then []
    else [Doc(docs[0].id, if docs[0].id == id then v else docs[0].value)] + Set(docs[1..], id, v)
  }

  /** `ctx.db.delete(id)` on the table: exactly the documents with other ids stay. */
  function Remove<T>(docs: seq<Doc<T>>, id: Id): (r: seq<Doc<T>>)
    ensures forall i :: 0 <= i < |r| ==> r[i] in docs && r[i].id != id
    ensures forall i :: 0 <= i < |docs| && docs[i].id != id ==> docs[i] in r
    ensures |r| <= |docs|
  {
    if docs == [] then []
    else if docs[0].id == id then Remove(docs[1..], id)
    else [docs[0]] + Remove(docs[1..], id)
  }

  /** The documents whose value satisfies `keep`, in table order (`.filter(...).collect()`). */
  function Filter<T>(docs: seq<Doc<T>>, keep: T -> bool): (r: seq<Doc<T>>)
    ensures forall i :: 0 <= i < |r| ==> r[i] in docs && keep(r[i].value)
    ensures forall i :: 0 <= i < |docs| && keep(docs[i].value) ==> docs[i] in r
    ensures |r| <= |docs|
  {
    if docs == [] then []
    else (if keep(docs[0].value) then [docs[0]] else []) + Filter(docs[1..], keep)
  }

  /** The first document in table order whose value satisfies `keep` (`.filter(...).first()`). */
  function First<T>(docs: seq<Doc<T>>, keep: T -> bool): (r: Option<Doc<T>>)
    ensures r.Some? ==> exists i :: (0 <= i < |docs| && docs[i] == r.value && keep(r.value.value)
      && forall j :: 0 <= j < i ==> !keep(docs[j].value))
    ensures r.None? ==> forall i :: 0 <= i < |docs| ==> !keep(docs[i].value)
  {
    if docs == [] then None
    else if keep(docs[0].value) then Some(docs[0])
    else
      var r := First(docs[1..], keep);
      assert r.Some? ==> exists i :: (1 <= i < |docs| && docs[i] == r.value && keep(r.value.value)
        && forall j :: 0 <= j < i ==> !keep(docs[j].value)) by {
        if r.Some? {
          var k :| 0 <= k < |docs| - 1 && docs[1..][k] == r.value && keep(r.value.value)
            && forall j :: 0 <= j < k ==> !keep(docs[1..][j].value);
          assert docs[k + 1] == r.value;
          forall j | 0 <= j < k + 1 ensures !keep(docs[j].value) {
            if j > 0 { assert docs[j] == docs[1..][j - 1]; }
          }
        }
      }
      r
  }

  /** The table in reverse order, newest document first (`.order("desc")`). */
  function Reverse<T>(docs: seq<Doc<T>>): (r: seq<Doc<T>>)
    ensures |r| == |docs|
    ensures forall i :: 0 <= i < |docs| ==> r[i] == docs[|docs| - 1 - i]
  {
    if docs == [] then [] else Reverse(docs[1..]) + [docs[0]]
  }

  lemma {:induction false} GetAfterSet<T>(docs: seq<Doc<T>>, id: Id, v: T, j: Id)
    requires Increasing(docs)
    ensures Get(Set(docs, id, v), j) == if j == id && Has(docs, id) then Some(v) else Get(docs, j)
  {
    if docs != [] {
      assert Set(docs, id, v)[1..] == Set(docs[1..], id, v);
      GetAfterSet(docs[1..], id, v, j);
    }
  }

  lemma {:induction false} SetKeepsIncreasing<T>(docs: seq<Doc<T>>, id: Id, v: T, bound: nat)
    ensures Increasing(docs) ==> Increasing(Set(docs, id, v))
    ensures Below(docs, bound) ==> Below(Set(docs, id, v), bound)
  {
  }

  lemma {:induction false} GetAfterRemove<T>(docs: seq<Doc<T>>, id: Id, j: Id)
    ensures Get(Remove(docs, id), j) == if j == id then None else Get(docs, j)
  {
    if docs != [] {
      GetAfterRemove(docs[1..], id, j);
      if docs[0].id != id {
        assert ([docs[0]] + Remove(docs[1..], id))[1..] == Remove(docs[1..], id);
      }
    }
  }

  lemma {:induction false} RemoveKeepsIncreasing<T>(docs: seq<Doc<T>>, id: Id, bound: nat)
    ensures Increasing(docs) ==> Increasing(Remove(docs, id))
    ensures Below(docs, bound) ==> Below(Remove(docs, id), bound)
  {
    if docs != [] {
      RemoveKeepsIncreasing(docs[1..], id, bound);
      if Increasing(docs) {
        TailIncreasing(docs);
        var r := Remove(docs[1..], id);
        forall k | 0 <= k < |r| ensures docs[0].id < r[k].id {
          var m :| 0 <= m < |docs| && docs[m] == r[k];
          assert m != 0;
        }
        ConsIncreasing(docs[0], docs[0].id != id, r);
      }
    }
  }

  /** An inserted document gets a fresh id above every existing one, so lookups of old ids are unchanged. */
  lemma {:induction false} GetAfterAppend<T>(docs: seq<Doc<T>>, n: Id, v: T, j: Id)
    requires Below(docs, n)
    ensures Get(docs + [Doc(n, v)], j) == if j == n then Some(v) else Get(docs, j)
  {
    if docs == [] {
    } else {
      assert (docs + [Doc(n, v)])[1..] == docs[1..] + [Doc(n, v)];
      GetAfterAppend(docs[1..], n, v, j);
    }
  }

  lemma AppendKeepsIncreasing<T>(docs: seq<Doc<T>>, n: Id, v: T)
    requires Increasing(docs) && Below(docs, n)
    ensures Increasing(docs + [Doc(n, v)]) && Below(docs + [Doc(n, v)], n + 1)
  {
  }

  /** The documents are ordered by `key`, largest first. */
  ghost predicate Descending<T>(docs: seq<Doc<T>>, key: T -> int) {
    forall i, j :: 0 <= i < j < |docs| ==> key(docs[i].value) >= key(docs[j].value)
  }

  /** Inserts `d` after every document whose key is at least its own, so equal keys keep their order. */
  function InsertDesc<T>(d: Doc<T>, sorted: seq<Doc<T>>, key: T -> int): (r: seq<Doc<T>>)
    ensures multiset(r) == multiset(sorted) + multiset{d}
    ensures forall k :: 0 <= k < |r| ==> r[k] == d || r[k] in sorted
    ensures Descending(sorted, key) ==> Descending(r, key)
  {
    if sorted == [] then [d]
    else if key(sorted[0].value) >= key(d.value) then
      var rest := InsertDesc(d, sorted[1..], key);
      assert sorted == [sorted[0]] + sorted[1..];
      KeepFirstDescending(d, sorted, rest, key);
      [sorted[0]] + rest
    else
      PutFirstDescending(d, sorted, key);
      [d] + sorted
  }

  lemma KeepFirstDescending<T>(d: Doc<T>, sorted: seq<Doc<T>>, rest: seq<Doc<T>>, key: T -> int)
    requires sorted != [] && key(sorted[0].value) >= key(d.value)
    requires forall k :: 0 <= k < |rest| ==> rest[k] == d || rest[k] in sorted[1..]
    requires Descending(sorted[1..], key) ==> Descending(rest, key)
    ensures Descending(sorted, key) ==> Descending([sorted[0]] + rest, key)
  {
    if Descending(sorted, key) {
      assert Descending(sorted[1..], key) by {
        forall i, j | 0 <= i < j < |sorted| - 1 ensures key(sorted[1..][i].value) >= key(sorted[1..][j].value) {
          assert sorted[1..][i] == sorted[i + 1] && sorted[1..][j] == sorted[j + 1];
        }
      }
      forall k | 0 <= k < |rest| ensures key(sorted[0].value) >= key(rest[k].value) {
        if rest[k] != d {
          var m :| 0 <= m < |sorted[1..]| && sorted[1..][m] == rest[k];
          assert sorted[1..][m] == sorted[m + 1];
        }
      }
      PrependDescending(sorted[0], rest, key);
    }
  }

  lemma PutFirstDescending<T>(d: Doc<T>, sorted: seq<Doc<T>>, key: T -> int)
    requires sorted != [] && key(sorted[0].value) < key(d.value)
    ensures Descending(sorted, key) ==> Descending([d] + sorted, key)
  {
    if Descending(sorted, key) {
      PrependDescending(d, sorted, key);
    }
  }

  lemma PrependDescending<T>(h: Doc<T>, rest: seq<Doc<T>>, key: T -> int)
    requires Descending(rest, key) && forall k :: 0 <= k < |rest| ==> key(h.value) >= key(rest[k].value)
    ensures Descending([h] + rest, key)
  {
    var r := [h] + rest;
    forall i, j | 0 <= i < j < |r| ensures key(r[i].value) >= key(r[j].value) {
      assert r[j] == rest[j - 1];
      if i > 0 {
        assert r[i] == rest[i - 1];
      }
    }
  }

  /** A sort by `key`, largest first: the order of `.sort((a, b) => key(b) - key(a))`. */
  function SortDesc<T>(docs: seq<Doc<T>>, key: T -> int): (r: seq<Doc<T>>)
    ensures multiset(r) == multiset(docs)
    ensures Descending(r, key)
  {
    if docs == [] then []
    else
      assert docs == docs[..|docs| - 1] + [docs[|docs| - 1]];
      InsertDesc(docs[|docs| - 1], SortDesc(docs[..|docs| - 1], key), key)
  }

  /** `after` is `before` with the document `id` given the value `v`; ids, order and every other document are kept. */
  ghost predicate Replaced<T>(before: seq<Doc<T>>, after: seq<Doc<T>>, id: Id, v: T) {
    && Ids(after) == Ids(before)
    && Get(after, id) == Some(v)
    && forall j :: j != id ==> Get(after, j) == Get(before, j)
  }

  /** `ctx.db.patch(id, ...)` on a table that holds `id`. */
  lemma SetReplaces<T>(docs: seq<Doc<T>>, id: Id, v: T, bound: nat)
    requires Increasing(docs) && Below(docs, bound) && Has(docs, id)
    ensures Replaced(docs, Set(docs, id, v), id, v)
    ensures Increasing(Set(docs, id, v)) && Below(Set(docs, id, v), bound)
  {
    assert Ids(Set(docs, id, v)) == Ids(docs);
    forall j ensures Get(Set(docs, id, v), j) == if j == id then Some(v) else Get(docs, j) {
      GetAfterSet(docs, id, v, j);
    }
    SetKeepsIncreasing(docs, id, v, bound);
  }

  /** `.query(t).filter(keep).order("desc").collect()`: the matching documents, newest first. */
  function QueryDesc<T>(docs: seq<Doc<T>>, keep: T -> bool): (r: seq<Doc<T>>)
    ensures forall i :: 0 <= i < |r| ==> r[i] in docs && keep(r[i].value)
    ensures forall i :: 0 <= i < |docs| && keep(docs[i].value) ==> docs[i] in r
    ensures Increasing(docs) ==> forall i, j :: 0 <= i < j < |r| ==> r[i].id > r[j].id
  {
    ReverseOfFilter(docs, keep);
    Reverse(Filter(docs, keep))
  }

  lemma ReverseOfFilter<T>(docs: seq<Doc<T>>, keep: T -> bool)
    ensures var r := Reverse(Filter(docs, keep));
      && (forall i :: 0 <= i < |r| ==> r[i] in docs && keep(r[i].value))
      && (forall i :: 0 <= i < |docs| && keep(docs[i].value) ==> docs[i] in r)
      && (Increasing(docs) ==> forall i, j :: 0 <= i < j < |r| ==> r[i].id > r[j].id)
  {
    var mine := Filter(docs, keep);
    ReverseMembers(mine);
    FilterKeepsIncreasing(docs, keep);
    ReverseOfIncreasing(mine);
  }

  lemma ReverseMembers<T>(docs: seq<Doc<T>>)
    ensures forall i :: 0 <= i < |docs| ==> docs[i] in Reverse(docs)
    ensures forall i :: 0 <= i < |docs| ==> Reverse(docs)[i] in docs
  {
    var r := Reverse(docs);
    forall k | 0 <= k < |docs| ensures docs[k] in r && r[k] in docs {
      assert r[|docs| - 1 - k] == docs[k];
      assert r[k] == docs[|docs| - 1 - k];
    }
  }

  lemma ReverseOfIncreasing<T>(docs: seq<Doc<T>>)
    ensures Increasing(docs) ==> forall i, j :: 0 <= i < j < |docs| ==> Reverse(docs)[i].id > Reverse(docs)[j].id
  {
    if Increasing(docs) {
      var r := Reverse(docs);
      forall i, j | 0 <= i < j < |docs| ensures r[i].id > r[j].id {
        assert r[i] == docs[|docs| - 1 - i] && r[j] == docs[|docs| - 1 - j];
      }
    }
  }

  lemma {:induction false} FilterKeepsIncreasing<T>(docs: seq<Doc<T>>, keep: T -> bool)
    ensures Increasing(docs) ==> Increasing(Filter(docs, keep))
  {
    if docs != [] && Increasing(docs) {
      var tail := docs[1..];
      TailIncreasing(docs);
      FilterKeepsIncreasing(tail, keep);
      var rest := Filter(tail, keep);
      forall k | 0 <= k < |rest| ensures docs[0].id < rest[k].id {
        var m :| 0 <= m < |tail| && tail[m] == rest[k];
        assert tail[m] == docs[m + 1];
      }
      ConsIncreasing(docs[0], keep(docs[0].value), rest);
    }
  }

  lemma TailIncreasing<T>(docs: seq<Doc<T>>)
    requires docs != [] && Increasing(docs)
    ensures Increasing(docs[1..])
  {
    var tail := docs[1..];
    forall i, j | 0 <= i < j < |tail| ensures tail[i].id < tail[j].id {
      assert tail[i] == docs[i + 1] && tail[j] == docs[j + 1];
    }
  }

  /** A document below every id of an increasing table can be put in front of it. */
  lemma ConsIncreasing<T>(d: Doc<T>, present: bool, rest: seq<Doc<T>>)
    requires Increasing(rest) && forall k :: 0 <= k < |rest| ==> d.id < rest[k].id
    ensures Increasing((if present then [d] else []) + rest)
  {
    var r := (if present then [d] else []) + rest;
    forall i, j | 0 <= i < j < |r| ensures r[i].id < r[j].id {
      if present {
        if i == 0 {
          assert r[j] == rest[j - 1];
        } else {
          assert r[i] == rest[i - 1] && r[j] == rest[j - 1];
        }
      } else {
        assert r[i] == rest[i] && r[j] == rest[j];
      }
    }
  }
}
