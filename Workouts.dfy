/**
 * The workout collection's document handling in server/index.js: what
 * `POST /workouts` stores, the owner filter and `date` ordering of
 * `GET /workouts`, and the `_id` to `id` renaming of both GET routes.
 */
module Workouts {
  import opened Bson

  /**
   * The record the insert stores: the payload with `createdAt` set. The
   * driver gives it a fresh ObjectId when `_id` is absent or null
   * (`doc._id == null`); any other client `_id` is kept.
   */
  function StoredForm(payload: Doc, createdAt: string, freshId: ObjectId): (d: Doc)
    ensures "_id" in d && "createdAt" in d && d["createdAt"] == Str(createdAt)
    ensures d["_id"] != Null
    ensures d["_id"] == if "_id" in payload && payload["_id"] != Null then payload["_id"] else Oid(freshId)
    ensures d.Keys == payload.Keys + {"createdAt", "_id"}
    ensures forall k :: k in payload && k != "createdAt" && k != "_id" ==> d[k] == payload[k]
  {
    var withTime := payload["createdAt" := Str(createdAt)];
    if "_id" in withTime && withTime["_id"] != Null then withTime else withTime["_id" := Oid(freshId)]
  }

  /** Every record carries an `_id`, and no two records share one (MongoDB's unique `_id` index). */
  ghost predicate IdsUnique(ws: seq<Doc>)
  {
    && (forall i :: 0 <= i < |ws| ==> "_id" in ws[i])
    && (forall i, j :: 0 <= i < j < |ws| ==> ws[i]["_id"] != ws[j]["_id"])
  }

  /** Some stored record already has this `_id`. */
  predicate IdTaken(ws: seq<Doc>, id: Value)
  {
    exists i :: 0 <= i < |ws| && "_id" in ws[i] && ws[i]["_id"] == id
  }

  // GET /workouts?email=e

  predicate OwnedBy(d: Doc, email: string)
  {
    "userEmail" in d && d["userEmail"] == Str(email)
  }

  /** `find({userEmail: email})`: the records of that owner, in insertion order. */
  function FilterOwner(ws: seq<Doc>, email: string): (r: seq<Doc>)
    ensures forall d :: d in r ==> d in ws && OwnedBy(d, email)
    ensures forall d :: d in ws && OwnedBy(d, email) ==> d in r
    ensures forall d :: multiset(r)[d] == if OwnedBy(d, email) then multiset(ws)[d] else 0
    ensures |r| <= |ws|
  {
    if ws == [] then []
    else
      var rest := FilterOwner(ws[1..], email);
      assert multiset(ws) == multiset{ws[0]} + multiset(ws[1..]) by { assert ws == [ws[0]] + ws[1..]; }
      (if OwnedBy(ws[0], email) then [ws[0]] else []) + rest
  }

  /** The sort key of `.sort({date: -1})`: a missing field sorts as null. */
  function DateKey(d: Doc): Value
  {
    if "date" in d then d["date"] else Null
  }

  /** Newest first: no record's date is below a later record's date. */
  ghost predicate SortedByDateDesc(s: seq<Doc>)
  {
    forall i, j :: 0 <= i < j < |s| ==> ValueLe(DateKey(s[j]), DateKey(s[i]))
  }

  /** A record whose date is at least every date of a sorted sequence may go in front of it. */
  lemma PrependSorted(d: Doc, s: seq<Doc>)
    requires SortedByDateDesc(s)
    requires forall e :: e in s ==> ValueLe(DateKey(e), DateKey(d))
    ensures SortedByDateDesc([d] + s)
  {
  }

  /** The first record of a sorted sequence has the greatest date. */
  lemma HeadIsLatest(s: seq<Doc>)
    requires SortedByDateDesc(s) && s != []
    ensures forall e :: e in s ==> ValueLe(DateKey(e), DateKey(s[0]))
  {
    forall e | e in s
      ensures ValueLe(DateKey(e), DateKey(s[0]))
    {
      var k :| 0 <= k < |s| && s[k] == e;
      if k == 0 {
        ValueLeTotal(DateKey(e), DateKey(e));
      }
    }
  }

  /** Places `d` before the first record whose date is not above its own. */
  function InsertByDate(d: Doc, s: seq<Doc>): (r: seq<Doc>)
    requires SortedByDateDesc(s)
    ensures SortedByDateDesc(r)
    ensures multiset(r) == multiset(s) + multiset{d}
  {
    if s == [] || ValueLe(DateKey(s[0]), DateKey(d)) then
      HeadIsLatestThenPrepend(d, s);
      [d] + s
    else
      var rest := InsertByDate(d, s[1..]);
      InsertedBelowHead(d, s, rest);
      [s[0]] + rest
  }

  lemma HeadIsLatestThenPrepend(d: Doc, s: seq<Doc>)
    requires SortedByDateDesc(s)
    requires s == [] || ValueLe(DateKey(s[0]), DateKey(d))
    ensures SortedByDateDesc([d] + s)
    ensures multiset([d] + s) == multiset(s) + multiset{d}
  {
    if s != [] {
      HeadIsLatest(s);
      forall e | e in s
        ensures ValueLe(DateKey(e), DateKey(d))
      {
        ValueLeTransitive(DateKey(e), DateKey(s[0]), DateKey(d));
      }
    }
    PrependSorted(d, s);
  }

  lemma InsertedBelowHead(d: Doc, s: seq<Doc>, rest: seq<Doc>)
    requires SortedByDateDesc(s) && s != [] && !ValueLe(DateKey(s[0]), DateKey(d))
    requires SortedByDateDesc(rest) && multiset(rest) == multiset(s[1..]) + multiset{d}
    ensures SortedByDateDesc([s[0]] + rest)
    ensures multiset([s[0]] + rest) == multiset(s) + multiset{d}
  {
    assert s == [s[0]] + s[1..];
    HeadIsLatest(s);
    ValueLeTotal(DateKey(s[0]), DateKey(d));
    forall e | e in rest
      ensures ValueLe(DateKey(e), DateKey(s[0]))
    {
      assert e in multiset(rest);
      if e != d {
        assert e in multiset(s[1..]);
        assert e in s;
      }
    }
    PrependSorted(s[0], rest);
  }

  /**
   * `.sort({date: -1})`, newest first. Records with equal dates keep their
   * insertion order.
   */
  function SortByDateDesc(s: seq<Doc>): (r: seq<Doc>)
    ensures SortedByDateDesc(r)
    ensures multiset(r) == multiset(s)
  {
    if s == [] then []
    else
      assert s == [s[0]] + s[1..];
      InsertByDate(s[0], SortByDateDesc(s[1..]))
  }

  // The `_id` to `id` renaming.

  /**
   * `{...item, id: String(item._id)}` without `_id`. A record without `_id`
   * would print as "undefined"; the store gives every record one.
   */
  function Normalize(d: Doc): (r: Doc)
    ensures "_id" !in r && "id" in r
    ensures "_id" in d ==> r["id"] == Str(JsString(d["_id"]))
    ensures r.Keys == d.Keys - {"_id"} + {"id"}
    ensures forall k :: k in d && k != "_id" && k != "id" ==> r[k] == d[k]
  {
    var idText := if "_id" in d then JsString(d["_id"]) else "undefined";
    (d - {"_id"})["id" := Str(idText)]
  }

  /** `items.map(normalize)`. */
  function NormalizeAll(s: seq<Doc>): (r: seq<Doc>)
    ensures |r| == |s|
    ensures forall i :: 0 <= i < |s| ==> r[i] == Normalize(s[i])
  {
    if s == [] then [] else [Normalize(s[0])] + NormalizeAll(s[1..])
  }

  /** The renaming leaves `date` alone, so it keeps the listing's order. */
  lemma NormalizeAllSorted(s: seq<Doc>)
    requires SortedByDateDesc(s)
    ensures SortedByDateDesc(NormalizeAll(s))
  {
  }

  /** The renamed listing holds exactly the renamed forms of the records listed. */
  lemma NormalizeAllMembers(s: seq<Doc>)
    ensures forall x :: x in NormalizeAll(s) ==> exists d :: d in s && x == Normalize(d)
    ensures forall d :: d in s ==> Normalize(d) in NormalizeAll(s)
  {
  }

  /** Two sequences with the same multiset have the same members. */
  lemma SameMembers(a: seq<Doc>, b: seq<Doc>)
    requires multiset(a) == multiset(b)
    ensures |a| == |b|
    ensures forall d :: d in a <==> d in b
  {
    assert |a| == |multiset(a)| == |multiset(b)| == |b|;
    forall d
      ensures d in a <==> d in b
    {
      assert d in a <==> d in multiset(a);
      assert d in b <==> d in multiset(b);
    }
  }
}
