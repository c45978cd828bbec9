/**
 * The collections tables and the queries and updates the collections
 * handler runs on them: the `collections` rows, the `collections_roms`
 * association pairs `(collection_id, rom_id)` and the rows of the
 * `virtual_collections` view.
 */
module CollectionsDb {
  import opened Wrappers
  import opened Sorting
  import opened CollectionModel

  /**
   * The columns an update sets, `None` for those its data leave alone.  A
   * nullable column takes an optional value.
   */
  datatype CollectionChanges = CollectionChanges(
    name: Option<string>,
    description: Option<Option<string>>,
    isPublic: Option<bool>,
    pathCoverL: Option<Option<string>>,
    pathCoverS: Option<Option<string>>,
    urlCover: Option<Option<string>>,
    userId: Option<int>)

  const NoChanges := CollectionChanges(None, None, None, None, None, None, None)

  function Given<T>(change: Option<T>, current: T): T {
    if change.Some? then change.value else current
  }

  /** A row after `UPDATE ... SET` with the data's columns. */
  function Apply(c: Collection, d: CollectionChanges): (r: Collection)
    ensures r.id == c.id && r.updatedAt == c.updatedAt
  {
    c.(name := Given(d.name, c.name),
       description := Given(d.description, c.description),
       isPublic := Given(d.isPublic, c.isPublic),
       pathCoverL := Given(d.pathCoverL, c.pathCoverL),
       pathCoverS := Given(d.pathCoverS, c.pathCoverS),
       urlCover := Given(d.urlCover, c.urlCover),
       userId := Given(d.userId, c.userId))
  }

  /** An update with no data leaves the row as it was. */
  lemma ApplyNoChanges(c: Collection)
    ensures Apply(c, NoChanges) == c
  {
  }

  /** Setting the same data twice is setting it once. */
  lemma ApplyIdempotent(c: Collection, d: CollectionChanges)
    ensures Apply(Apply(c, d), d) == Apply(c, d)
  {
  }

  // ---------------------------------------------------------------------
  // The tables as values

  predicate HasId(rows: seq<Collection>, id: int) {
    exists i | 0 <= i < |rows| :: rows[i].id == id
  }

  /** The primary key: no two rows share an id. */
  predicate UniqueIds(rows: seq<Collection>) {
    forall i, j | 0 <= i < j < |rows| :: rows[i].id != rows[j].id
  }

  /** The rows after `UPDATE collections SET ... WHERE id = id`. */
  function UpdateRow(rows: seq<Collection>, id: int, d: CollectionChanges): (r: seq<Collection>)
    ensures |r| == |rows|
    ensures forall i | 0 <= i < |rows| :: r[i] == if rows[i].id == id then Apply(rows[i], d) else rows[i]
  {
    seq(|rows|, i requires 0 <= i < |rows| => if rows[i].id == id then Apply(rows[i], d) else rows[i])
  }

  /** The rows after `DELETE FROM collections WHERE id = id`, in their order. */
  function RemoveRow(rows: seq<Collection>, id: int): (r: seq<Collection>)
    ensures |r| <= |rows|
  {
    if rows == [] then []
    else if rows[0].id == id then RemoveRow(rows[1..], id)
    else [rows[0]] + RemoveRow(rows[1..], id)
  }

  /** Deleting removes the rows with that id and keeps every other row. */
  lemma {:induction false} RemoveRowMembers(rows: seq<Collection>, id: int, c: Collection)
    ensures c in RemoveRow(rows, id) <==> c in rows && c.id != id
  {
    if rows != [] {
      RemoveRowMembers(rows[1..], id, c);
      assert rows == [rows[0]] + rows[1..];
    }
  }

  /** The ids of the rows left. */
  lemma RemoveRowIds(rows: seq<Collection>, id: int, x: int)
    ensures HasId(RemoveRow(rows, id), x) <==> HasId(rows, x) && x != id
  {
    var r := RemoveRow(rows, id);
    if HasId(r, x) {
      var i :| 0 <= i < |r| && r[i].id == x;
      RemoveRowMembers(rows, id, r[i]);
      var k :| 0 <= k < |rows| && rows[k] == r[i];
    }
    if HasId(rows, x) && x != id {
      var i :| 0 <= i < |rows| && rows[i].id == x;
      RemoveRowMembers(rows, id, rows[i]);
      var k :| 0 <= k < |r| && r[k] == rows[i];
    }
  }

  /** Deleting keeps the primary key. */
  lemma {:induction false} RemoveRowUnique(rows: seq<Collection>, id: int)
    requires UniqueIds(rows)
    ensures UniqueIds(RemoveRow(rows, id))
  {
    if rows != [] {
      var t := rows[1..];
      assert UniqueIds(t) by {
        forall i, j | 0 <= i < j < |t| ensures t[i].id != t[j].id {
          assert t[i] == rows[i + 1] && t[j] == rows[j + 1];
        }
      }
      RemoveRowUnique(t, id);
      if rows[0].id != id {
        var u := RemoveRow(t, id);
        forall k | 0 <= k < |u| ensures u[k].id != rows[0].id {
          assert u[k] in u;
          RemoveRowMembers(t, id, u[k]);
          var m :| 0 <= m < |t| && t[m] == u[k];
          assert t[m] == rows[m + 1];
        }
        var r := [rows[0]] + u;
        forall i, j | 0 <= i < j < |r| ensures r[i].id != r[j].id {
          if i > 0 {
            assert r[i] == u[i - 1];
          }
          assert r[j] == u[j - 1];
        }
      }
    }
  }

  /** The roms of collection `id`. */
  function RomsOf(pairs: set<(int, int)>, id: int): set<int> {
    set p | p in pairs && p.0 == id :: p.1
  }

  /** The pairs after `DELETE FROM collections_roms WHERE collection_id = id`. */
  function RemovePairs(pairs: set<(int, int)>, id: int): set<(int, int)> {
    set p | p in pairs && p.0 != id
  }

  /**
   * The association after an update with `rom_ids`: left alone without
   * them, otherwise the collection's pairs are those of the given ids.
   */
  function ReplaceRoms(pairs: set<(int, int)>, id: int, romIds: Option<seq<int>>): set<(int, int)> {
    if romIds.None? then pairs
    else RemovePairs(pairs, id) + set r | r in romIds.value :: (id, r)
  }

  /** After the update the collection holds exactly the roms of the list, each once. */
  lemma ReplaceRomsOwn(pairs: set<(int, int)>, id: int, romIds: seq<int>)
    ensures RomsOf(ReplaceRoms(pairs, id, Some(romIds)), id) == set r | r in romIds
  {
    var after := ReplaceRoms(pairs, id, Some(romIds));
    forall r | r in romIds ensures r in RomsOf(after, id) {
      assert (id, r) in after;
    }
  }

  /** An empty list leaves the collection with no roms. */
  lemma ReplaceRomsEmpty(pairs: set<(int, int)>, id: int)
    ensures RomsOf(ReplaceRoms(pairs, id, Some([])), id) == {}
  {
    ReplaceRomsOwn(pairs, id, []);
  }

  /** Without a list the association is what it was. */
  lemma ReplaceRomsNone(pairs: set<(int, int)>, id: int)
    ensures ReplaceRoms(pairs, id, None) == pairs
  {
  }

  /** The roms of every other collection are left as they were. */
  lemma ReplaceRomsOthers(pairs: set<(int, int)>, id: int, romIds: Option<seq<int>>, other: int)
    requires other != id
    ensures RomsOf(ReplaceRoms(pairs, id, romIds), other) == RomsOf(pairs, other)
  {
    var after := ReplaceRoms(pairs, id, romIds);
    forall r | r in RomsOf(pairs, other) ensures r in RomsOf(after, other) {
      assert (other, r) in after;
    }
  }

  /** Replacing twice with the same list is replacing once. */
  lemma ReplaceRomsIdempotent(pairs: set<(int, int)>, id: int, romIds: Option<seq<int>>)
    ensures ReplaceRoms(ReplaceRoms(pairs, id, romIds), id, romIds) == ReplaceRoms(pairs, id, romIds)
  {
  }

  /**
   * The ids of `s` each once: the rows inserted from `set(rom_ids)`.  A
   * Python set iterates in hash order; only the set of pairs inserted is
   * observable, so the model takes the ids in the order of their first
   * occurrence.
   */
  function Dedup(s: seq<int>): (r: seq<int>)
    ensures forall i, j | 0 <= i < j < |r| :: r[i] != r[j]
    ensures forall x :: x in r <==> x in s
  {
    if s == [] then []
    else
      var t := Dedup(s[..|s| - 1]);
      assert forall x :: x in s <==> x in s[..|s| - 1] || x == s[|s| - 1];
      if s[|s| - 1] in t then t else t + [s[|s| - 1]]
  }

  predicate OfType(v: VirtualCollection, t: string) {
    v.collectionType == t || t == "all"
  }

  /** `WHERE type = t OR t = 'all'`, in the stored order. */
  function FilterType(rows: seq<VirtualCollection>, t: string): (r: seq<VirtualCollection>)
    ensures |r| <= |rows|
  {
    if rows == [] then []
    else (if OfType(rows[0], t) then [rows[0]] else []) + FilterType(rows[1..], t)
  }

  /** The filter keeps the rows of the type and only those. */
  lemma {:induction false} FilterTypeMembers(rows: seq<VirtualCollection>, t: string, v: VirtualCollection)
    ensures v in FilterType(rows, t) <==> v in rows && OfType(v, t)
  {
    if rows != [] {
      FilterTypeMembers(rows[1..], t, v);
      assert rows == [rows[0]] + rows[1..];
    }
  }

  /** `"all"` keeps every row. */
  lemma {:induction false} FilterAll(rows: seq<VirtualCollection>)
    ensures FilterType(rows, "all") == rows
  {
    if rows != [] {
      FilterAll(rows[1..]);
      assert rows == [rows[0]] + rows[1..];
    }
  }

  function CollectionName(c: Collection): string { c.name }
  function VirtualName(v: VirtualCollection): string { v.name }

  /** `get_virtual_collections(t, limit)`: the filtered rows by name, cut at the limit. */
  function VirtualQuery(rows: seq<VirtualCollection>, t: string, limit: Option<nat>): (r: seq<VirtualCollection>)
    ensures limit.Some? ==> |r| <= limit.value
  {
    Take(SortBy(FilterType(rows, t), VirtualName), limit)
  }

  /** The query's rows are of the type, sorted by name, at most `limit`, and all of them without a limit. */
  lemma VirtualQuerySpec(rows: seq<VirtualCollection>, t: string, limit: Option<nat>)
    ensures var r := VirtualQuery(rows, t, limit);
      && SortedBy(r, VirtualName)
      && (forall i | 0 <= i < |r| :: r[i] in rows && OfType(r[i], t))
      && (limit.None? ==> multiset(r) == multiset(FilterType(rows, t)))
  {
    var f := FilterType(rows, t);
    var s := SortBy(f, VirtualName);
    var r := VirtualQuery(rows, t, limit);
    SortBySorted(f, VirtualName);
    forall i | 0 <= i < |r| ensures r[i] in rows && OfType(r[i], t) {
      assert r[i] == s[i];
      assert s[i] in multiset(s);
      assert s[i] in multiset(f);
      FilterTypeMembers(rows, t, s[i]);
    }
  }

  /**
   * Why an update fails: `.one()` finds no row, or the insert of pairs for
   * a collection that does not exist breaks the `collection_id` foreign key.
   */
  datatype DbError = NoResultFound | IntegrityError

  /** The collection handler's view of the tables. */

  class CollectionsTables {
    var collections: seq<Collection>
    var collectionRoms: set<(int, int)>
    var virtualCollections: seq<VirtualCollection>

    ghost predicate Valid()
      reads this
    {
      UniqueIds(collections)
    }

    constructor (collections: seq<Collection>, collectionRoms: set<(int, int)>, virtualCollections: seq<VirtualCollection>)
      requires UniqueIds(collections)
      ensures Valid()
      ensures this.collections == collections && this.collectionRoms == collectionRoms
      ensures this.virtualCollections == virtualCollections
    {
      this.collections := collections;
      this.collectionRoms := collectionRoms;
      this.virtualCollections := virtualCollections;
    }

    /** The index of the row with `id`, or `|collections|` when there is none. */
    method FindRow(id: int) returns (i: nat)
      ensures i <= |collections|
      ensures i < |collections| <==> HasId(collections, id)
      ensures i < |collections| ==> collections[i].id == id
    {
      i := 0;
      while i < |collections| && collections[i].id != id
        invariant i <= |collections|
        invariant forall k | 0 <= k < i :: collections[k].id != id
      {
        i := i + 1;
      }
    }

    /**
     * `update_collection(id, data, rom_ids)`: the row with `id` takes the
     * data; with `rom_ids` its pairs are deleted and one pair is inserted
     * for each distinct id of the list; then the row is read back.  For a
     * missing id the update and the delete touch nothing; the insert then
     * fails on the `collection_id` foreign key when there are ids to insert,
     * and otherwise `.one()` finds no row.  Either way the session is
     * rolled back and nothing changes.
     */
    method UpdateCollection(id: int, data: CollectionChanges, romIds: Option<seq<int>>) returns (r: Result<Collection, DbError>)
      requires Valid()
      modifies this
      ensures Valid()
      ensures virtualCollections == old(virtualCollections)
      ensures !HasId(old(collections), id) ==>
        collections == old(collections) && collectionRoms == old(collectionRoms)
      ensures !HasId(old(collections), id) && romIds.Some? && romIds.value != [] ==> r == Failure(IntegrityError)
      ensures !HasId(old(collections), id) && (romIds.None? || romIds.value == []) ==> r == Failure(NoResultFound)
      ensures HasId(old(collections), id) ==>
        && collections == UpdateRow(old(collections), id, data)
        && collectionRoms == ReplaceRoms(old(collectionRoms), id, romIds)
        && r.Success? && r.value in collections && r.value.id == id
    {
      var i := FindRow(id);
      if i == |collections| {
        if romIds.Some? && romIds.value != [] {
          return Failure(IntegrityError);
        }
        return Failure(NoResultFound);
      }
      ghost var before := collections;
      collections := collections[i := Apply(collections[i], data)];
      assert collections == UpdateRow(before, id, data) by {
        forall k | 0 <= k < |before| ensures collections[k] == UpdateRow(before, id, data)[k] {
          if k != i {
            assert before[k].id != before[i].id;
          }
        }
      }
      assert Valid() by {
        forall a, b | 0 <= a < b < |collections| ensures collections[a].id != collections[b].id {
          assert collections[a].id == before[a].id && collections[b].id == before[b].id;
        }
      }
      if romIds.Some? {
        var base := RemovePairs(collectionRoms, id);
        collectionRoms := base;
        var rows := Dedup(romIds.value);
        ghost var updated := collections;
        var k := 0;
        while k < |rows|
          invariant 0 <= k <= |rows|
          invariant collections == updated && virtualCollections == old(virtualCollections)
          invariant collectionRoms == base + set j | 0 <= j < k :: (id, rows[j])
        {
          // The pair is new: the unique (collection_id, rom_id) constraint holds.
          assert (id, rows[k]) !in collectionRoms;
          collectionRoms := collectionRoms + {(id, rows[k])};
          assert (set j | 0 <= j < k + 1 :: (id, rows[j])) == (set j | 0 <= j < k :: (id, rows[j])) + {(id, rows[k])};
          k := k + 1;
        }
        assert (set j | 0 <= j < |rows| :: (id, rows[j])) == set x | x in romIds.value :: (id, x) by {
          forall x | x in romIds.value ensures (id, x) in set j | 0 <= j < |rows| :: (id, rows[j]) {
            var j :| 0 <= j < |rows| && rows[j] == x;
          }
        }
      }
      r := Success(collections[i]);
    }

    /** `delete_collection(id)`: the row goes, and its pairs with it on the cascade of the foreign key. */
    method DeleteCollection(id: int)
      requires Valid()
      modifies this
      ensures Valid()
      ensures collections == RemoveRow(old(collections), id)
      ensures collectionRoms == RemovePairs(old(collectionRoms), id)
      ensures virtualCollections == old(virtualCollections)
    {
      RemoveRowUnique(collections, id);
      collections := RemoveRow(collections, id);
      collectionRoms := RemovePairs(collectionRoms, id);
    }

    /** `get_collections()`: every row, ascending by name. */
    method GetCollections() returns (r: seq<Collection>)
      ensures SortedBy(r, CollectionName)
      ensures multiset(r) == multiset(collections)
    {
      r := SortBy(collections, CollectionName);
      SortBySorted(collections, CollectionName);
    }

    /** `get_virtual_collections(t, limit)`. */
    method GetVirtualCollections(t: string, limit: Option<nat>) returns (r: seq<VirtualCollection>)
      ensures r == VirtualQuery(virtualCollections, t, limit)
      ensures SortedBy(r, VirtualName)
      ensures forall i | 0 <= i < |r| :: r[i] in virtualCollections && OfType(r[i], t)
      ensures limit.Some? ==> |r| <= limit.value
    {
      r := VirtualQuery(virtualCollections, t, limit);
      VirtualQuerySpec(virtualCollections, t, limit);
    }
  }
}
