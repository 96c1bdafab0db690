/** The document store every controller talks to, reduced to what the
    controllers use: a collection is the list of its documents in the
    order the store enumerates them, each document carrying the id the
    store assigned to it.  Lookup by id, equality-filtered queries,
    in-place updates and whole-document writes are defined once here. */
module Store {

  type Id = string

  datatype Option<+T> = None | Some(value: T)

  /** One stored document: its id and its fields. */
  datatype Doc<+T> = Doc(id: Id, data: T)

  /** A collection as a query snapshot sees it, in store order. */
  type Collection<T> = seq<Doc<T>>

  function Ids<T>(c: Collection<T>): set<Id>
  {
    set i | 0 <= i < |c| :: c[i].id
  }

  /** No two documents of the collection share an id. */
  ghost predicate UniqueIds<T>(c: Collection<T>)
  {
    forall i, j :: 0 <= i < j < |c| ==> c[i].id != c[j].id
  }

  /** The fields of each document, ids dropped (a snapshot mapped
      through `doc.data()`). */
  function Datas<T>(c: Collection<T>): (r: seq<T>)
    ensures |r| == |c|
    ensures forall i :: 0 <= i < |c| ==> r[i] == c[i].data
  {
    seq(|c|, i requires 0 <= i < |c| => c[i].data)
  }

  /** Reading a document by id: the first document carrying that id. */
  function Get<T>(c: Collection<T>, id: Id): (r: Option<T>)
    ensures r.None? <==> id !in Ids(c)
    ensures r.Some? ==> Doc(id, r.value) in c
  {
    if |c| == 0 then None
    else if c[0].id == id then Some(c[0].data)
    else
      assert Ids(c) == {c[0].id} + Ids(c[1..]) by {
        assert c == [c[0]] + c[1..];
      }
      Get(c[1..], id)
  }

  /** With unique ids, the document stored under an id is the one read. */
  lemma {:induction false} GetUnique<T>(c: Collection<T>, d: Doc<T>)
    requires UniqueIds(c)
    requires d in c
    ensures Get(c, d.id) == Some(d.data)
  {
    if c[0] != d {
      assert d in c[1..];
      assert c[0].id != d.id by {
        var k :| 0 <= k < |c| && c[k] == d;
        assert k != 0;
      }
      GetUnique(c[1..], d);
    }
  }

  /** An equality-filtered query: the documents whose fields satisfy `p`,
      in store order. */
  function Select<T>(c: Collection<T>, p: T -> bool): (r: Collection<T>)
    ensures forall i :: 0 <= i < |r| ==> r[i] in c && p(r[i].data)
    ensures forall i :: 0 <= i < |c| && p(c[i].data) ==> c[i] in r
    ensures |r| <= |c|
  {
    if |c| == 0 then []
    else
      assert forall i :: 1 <= i < |c| ==> c[i] == c[1..][i - 1];
      (if p(c[0].data) then [c[0]] else []) + Select(c[1..], p)
  }

  /** A query answers nothing exactly when no document matches. */
  lemma SelectEmpty<T>(c: Collection<T>, p: T -> bool)
    ensures |Select(c, p)| == 0 <==> forall j :: 0 <= j < |c| ==> !p(c[j].data)
  {
    var r := Select(c, p);
    if |r| > 0 {
      var j :| 0 <= j < |c| && c[j] == r[0];
      assert p(c[j].data);
    }
  }

  /** The fields a query answers are exactly those of the matching
      documents. */
  lemma SelectDatas<T>(c: Collection<T>, p: T -> bool)
    ensures
      var items := Datas(Select(c, p));
      && (forall i :: 0 <= i < |items| ==> p(items[i]) && items[i] in Datas(c))
      && (forall j :: 0 <= j < |c| && p(c[j].data) ==> c[j].data in items)
  {
    var found := Select(c, p);
    var items := Datas(found);
    forall j | 0 <= j < |c| && p(c[j].data) ensures c[j].data in items {
      var k :| 0 <= k < |found| && found[k] == c[j];
      assert items[k] == c[j].data;
    }
    forall i | 0 <= i < |items| ensures items[i] in Datas(c) {
      var j :| 0 <= j < |c| && c[j] == found[i];
      assert c[j].data == items[i];
    }
  }

  /** The fields of the documents a query matches, in store order: empty
      exactly when nothing matches, and otherwise exactly the matching
      documents' fields. */
  function Matching<T(!new)>(c: Collection<T>, p: T -> bool): (items: seq<T>)
    ensures |items| == 0 <==> forall j :: 0 <= j < |c| ==> !p(c[j].data)
    ensures forall i :: 0 <= i < |items| ==> p(items[i]) && items[i] in Datas(c)
    ensures forall j :: 0 <= j < |c| && p(c[j].data) ==> c[j].data in items
    ensures forall x :: Occurrences(items, x) == if p(x) then Occurrences(Datas(c), x) else 0
  {
    SelectEmpty(c, p);
    SelectDatas(c, p);
    forall x ensures Occurrences(Datas(Select(c, p)), x) == if p(x) then Occurrences(Datas(c), x) else 0 {
      MatchingCount(c, p, x);
    }
    Datas(Select(c, p))
  }

  /** How many times `x` occurs in `s`. */
  ghost function Occurrences<T>(s: seq<T>, x: T): nat
  {
    if |s| == 0 then 0 else (if s[0] == x then 1 else 0) + Occurrences(s[1..], x)
  }

  /** An element occurs in a sequence exactly when it is counted there. */
  lemma {:induction false} OccurrencesIn<T>(s: seq<T>, x: T)
    ensures x in s <==> Occurrences(s, x) > 0
  {
    if |s| > 0 {
      OccurrencesIn(s[1..], x);
      assert s == [s[0]] + s[1..];
    }
  }

  /** A query keeps each matching document as many times as the collection
      holds it, and none of the others. */
  lemma {:induction false} SelectCount<T>(c: Collection<T>, p: T -> bool, d: Doc<T>)
    ensures Occurrences(Select(c, p), d) == if p(d.data) then Occurrences(c, d) else 0
  {
    if |c| > 0 {
      var rest := Select(c[1..], p);
      SelectCount(c[1..], p, d);
      if p(c[0].data) {
        assert Select(c, p) == [c[0]] + rest;
        assert Select(c, p)[1..] == rest;
      } else {
        assert Select(c, p) == rest;
      }
    }
  }

  lemma OccurrencesCons<T>(a: T, s: seq<T>, x: T)
    ensures Occurrences([a] + s, x) == (if a == x then 1 else 0) + Occurrences(s, x)
  {
    assert ([a] + s)[1..] == s;
  }

  lemma DatasCons<T>(d: Doc<T>, c: Collection<T>)
    ensures Datas([d] + c) == [d.data] + Datas(c)
  {
  }

  /** The same count, read on the documents' fields. */
  lemma {:induction false} MatchingCount<T>(c: Collection<T>, p: T -> bool, x: T)
    ensures Occurrences(Datas(Select(c, p)), x) == if p(x) then Occurrences(Datas(c), x) else 0
  {
    if |c| > 0 {
      var rest := Select(c[1..], p);
      MatchingCount(c[1..], p, x);
      assert c == [c[0]] + c[1..];
      DatasCons(c[0], c[1..]);
      OccurrencesCons(c[0].data, Datas(c[1..]), x);
      if p(c[0].data) {
        assert Select(c, p) == [c[0]] + rest;
        DatasCons(c[0], rest);
        OccurrencesCons(c[0].data, Datas(rest), x);
      } else {
        assert Select(c, p) == rest;
      }
    }
  }

  /** A document appended to the collection shows up at the end of every
      query it matches, and nowhere else. */
  lemma {:induction false} SelectAppend<T>(c: Collection<T>, d: Doc<T>, p: T -> bool)
    ensures Select(c + [d], p) == Select(c, p) + (if p(d.data) then [d] else [])
  {
    if |c| == 0 {
      assert [d][1..] == [];
    } else {
      assert (c + [d])[1..] == c[1..] + [d];
      SelectAppend(c[1..], d, p);
    }
  }

  /** Sum of `f` over the documents, first to last. */
  function SumOf<T>(c: Collection<T>, f: T -> int): int
  {
    if |c| == 0 then 0 else SumOf(c[..|c| - 1], f) + f(c[|c| - 1].data)
  }

  lemma SumOfAppend<T>(c: Collection<T>, d: Doc<T>, f: T -> int)
    ensures SumOf(c + [d], f) == SumOf(c, f) + f(d.data)
  {
    assert (c + [d])[..|c|] == c;
  }

  /** If every summand lies in [lo, hi], the sum lies in [lo*n, hi*n]. */
  lemma {:induction false} SumBounds<T>(c: Collection<T>, f: T -> int, lo: int, hi: int)
    requires forall i :: 0 <= i < |c| ==> lo <= f(c[i].data) <= hi
    ensures lo * |c| <= SumOf(c, f) <= hi * |c|
  {
    if |c| > 0 {
      var init := c[..|c| - 1];
      assert forall i :: 0 <= i < |init| ==> init[i] == c[i];
      SumBounds(init, f, lo, hi);
    }
  }

  /** An update of the named document: every document carrying `id` gets
      `f` applied to its fields, every other document is left as is. */
  function Modify<T>(c: Collection<T>, id: Id, f: T -> T): (r: Collection<T>)
    ensures |r| == |c|
    ensures forall i :: 0 <= i < |c| ==> r[i].id == c[i].id
    ensures forall i :: 0 <= i < |c| && c[i].id != id ==> r[i] == c[i]
    ensures forall i :: 0 <= i < |c| && c[i].id == id ==> r[i].data == f(c[i].data)
  {
    seq(|c|, i requires 0 <= i < |c| => if c[i].id == id then Doc(id, f(c[i].data)) else c[i])
  }

  /** Reading after an update: the named document carries the updated
      fields, every other id reads as before. */
  lemma {:induction false} GetModify<T>(c: Collection<T>, id: Id, f: T -> T, k: Id)
    ensures Get(Modify(c, id, f), k) ==
              if k != id then Get(c, k)
              else match Get(c, id) case None => None case Some(v) => Some(f(v))
  {
    if |c| > 0 {
      assert Modify(c, id, f)[1..] == Modify(c[1..], id, f);
      GetModify(c[1..], id, f, k);
    }
  }

  /** An update that neither adds nor removes a match leaves a query's
      answer unchanged. */
  lemma {:induction false} SelectModifyUnmatched<T>(c: Collection<T>, id: Id, f: T -> T, p: T -> bool)
    requires forall i :: 0 <= i < |c| && c[i].id == id ==> !p(c[i].data) && !p(f(c[i].data))
    ensures Select(Modify(c, id, f), p) == Select(c, p)
  {
    if |c| > 0 {
      assert Modify(c, id, f)[1..] == Modify(c[1..], id, f);
      assert forall i :: 1 <= i < |c| ==> c[i] == c[1..][i - 1];
      SelectModifyUnmatched(c[1..], id, f, p);
    }
  }

  /** A whole-document write (`doc(id).set(v)`): replaces the document
      when the id is present, creates it otherwise. */
  function Put<T>(c: Collection<T>, id: Id, v: T): (r: Collection<T>)
    ensures Get(r, id) == Some(v)
    ensures forall k :: k != id ==> Get(r, k) == Get(c, k)
    ensures Doc(id, v) in r
    ensures Ids(r) == Ids(c) + {id}
  {
    if id in Ids(c) then
      var r := Modify(c, id, _ => v);
      GetModify(c, id, _ => v, id);
      assert forall k :: k != id ==> Get(r, k) == Get(c, k) by {
        forall k | k != id {
          GetModify(c, id, _ => v, k);
        }
      }
      assert Doc(id, v) in r by {
        var j :| 0 <= j < |c| && c[j].id == id;
        assert r[j] == Doc(id, v);
      }
      assert Ids(r) == Ids(c) by {
        forall x | x in Ids(r) ensures x in Ids(c) {
          var j :| 0 <= j < |r| && r[j].id == x;
          assert c[j].id == x;
        }
        forall x | x in Ids(c) ensures x in Ids(r) {
          var j :| 0 <= j < |c| && c[j].id == x;
          assert r[j].id == x;
        }
      }
      r
    else
      var r := c + [Doc(id, v)];
      GetAppend(c, Doc(id, v), id);
      assert forall k :: k != id ==> Get(r, k) == Get(c, k) by {
        forall k | k != id {
          GetAppend(c, Doc(id, v), k);
        }
      }
      assert Ids(r) == Ids(c) + {id} by {
        assert forall i :: 0 <= i < |c| ==> r[i] == c[i];
        assert r[|c|] == Doc(id, v);
      }
      r
  }

  /** A whole-document write adds no document other than the written one:
      every document after it is the written one or was there before. */
  lemma PutDocs<T>(c: Collection<T>, id: Id, v: T, i: nat)
    requires i < |Put(c, id, v)|
    ensures Put(c, id, v)[i] == Doc(id, v) || Put(c, id, v)[i] in c
  {
    if id in Ids(c) {
      assert Put(c, id, v) == Modify(c, id, _ => v);
      if c[i].id != id {
        assert Put(c, id, v)[i] == c[i];
      }
    } else {
      assert Put(c, id, v) == c + [Doc(id, v)];
      if i < |c| {
        assert Put(c, id, v)[i] == c[i];
      }
    }
  }

  /** Reading after an append: earlier documents win, the new one is found
      only under an id nothing else carries. */
  lemma {:induction false} GetAppend<T>(c: Collection<T>, d: Doc<T>, k: Id)
    ensures Get(c + [d], k) == if k in Ids(c) then Get(c, k) else if k == d.id then Some(d.data) else None
  {
    if |c| == 0 {
    } else {
      assert (c + [d])[1..] == c[1..] + [d];
      assert Ids(c) == {c[0].id} + Ids(c[1..]) by {
        assert c == [c[0]] + c[1..];
      }
      GetAppend(c[1..], d, k);
    }
  }
}
