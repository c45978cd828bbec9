/**
 * The derived properties of a collection of roms and of a virtual
 * collection: the id lists and counts, the resources path, the cover
 * URLs, the favourites test, and the reversible text id of a virtual
 * collection.
 */
module CollectionModel {
  import opened Wrappers
  import opened PyText
  import Base64Url
  import Utf8
  import JsonText

  /** A rom as a collection sees it: its id and its two stored cover paths. */
  datatype Rom = Rom(id: int, pathCoverS: Option<string>, pathCoverL: Option<string>)

  datatype CoverSize = Small | Large

  function RomCover(r: Rom, size: CoverSize): Option<string> {
    if size == Small then r.pathCoverS else r.pathCoverL
  }

  /**
   * A row of the `collections` table.  `updatedAt` is the text that
   * formatting the row's update time in an f-string gives.
   */
  datatype Collection = Collection(
    id: int,
    name: string,
    description: Option<string>,
    isPublic: bool,
    pathCoverL: Option<string>,
    pathCoverS: Option<string>,
    urlCover: Option<string>,
    userId: int,
    updatedAt: string)

  function StoredCover(c: Collection, size: CoverSize): Option<string> {
    if size == Small then c.pathCoverS else c.pathCoverL
  }

  /** Python truthiness of an optional string: present and not empty. */
  predicate Truthy(p: Option<string>) {
    p.Some? && p.value != []
  }

  /** A cover's URL under the frontend resources path, stamped with the update time. */
  function CoverUrl(resources: string, path: string, updatedAt: string): string {
    resources + "/" + path + "?ts=" + updatedAt
  }

  /** Under the same resources path and stamp, different paths give different URLs. */
  lemma CoverUrlInjective(resources: string, p1: string, p2: string, updatedAt: string)
    requires CoverUrl(resources, p1, updatedAt) == CoverUrl(resources, p2, updatedAt)
    ensures p1 == p2
  {
    var u := CoverUrl(resources, p1, updatedAt);
    var k := |resources| + 1;
    assert |p1| == |p2|;
    assert u[k..k + |p1|] == p1;
    assert CoverUrl(resources, p2, updatedAt)[k..k + |p2|] == p2;
  }

  // ---------------------------------------------------------------------
  // Collection

  /**
   * The roms of a collection are a set of rows keyed by id: each id once.
   * Their order in `roms` is the order the relationship yields them in.
   */
  predicate DistinctRoms(roms: seq<Rom>) {
    forall i, j | 0 <= i < j < |roms| :: roms[i].id != roms[j].id
  }

  /** `rom_ids`: one id per rom, in the roms' order. */
  function RomIds(roms: seq<Rom>): (ids: seq<int>)
    ensures |ids| == |roms|
    ensures forall i | 0 <= i < |roms| :: ids[i] == roms[i].id
  {
    if roms == [] then [] else [roms[0].id] + RomIds(roms[1..])
  }

  /** The ids of a set of roms are themselves without repetition. */
  lemma RomIdsDistinct(roms: seq<Rom>)
    requires DistinctRoms(roms)
    ensures forall i, j | 0 <= i < j < |RomIds(roms)| :: RomIds(roms)[i] != RomIds(roms)[j]
  {
  }

  /** `rom_count`: as many as there are roms, and as there are ids. */
  function RomCount(roms: seq<Rom>): (n: nat)
    ensures n == |RomIds(roms)|
  {
    |roms|
  }

  /** `fs_resources_path`. */
  function FsResourcesPath(c: Collection): (p: string)
    ensures |p| > 12 && p[..12] == "collections/"
  {
    "collections/" + IntToString(c.id)
  }

  /** The collection's id is read back from its resources path, so no two collections share one. */
  lemma FsResourcesPathId(c: Collection)
    ensures ParseInt(FsResourcesPath(c)[12..]) == Some(c.id)
  {
    assert FsResourcesPath(c)[12..] == IntToString(c.id);
    IntToStringRoundTrip(c.id);
  }

  lemma FsResourcesPathInjective(a: Collection, b: Collection)
    requires FsResourcesPath(a) == FsResourcesPath(b)
    ensures a.id == b.id
  {
    FsResourcesPathId(a);
    FsResourcesPathId(b);
  }

  /** `path_cover_small` and `path_cover_large`. */
  function PathCover(resources: string, c: Collection, size: CoverSize): (r: Option<string>)
    ensures r.None? <==> !Truthy(StoredCover(c, size))
    ensures r.Some? ==> r.value == CoverUrl(resources, StoredCover(c, size).value, c.updatedAt)
  {
    var p := StoredCover(c, size);
    if p.Some? && p.value != [] then Some(CoverUrl(resources, p.value, c.updatedAt)) else None
  }

  /** `path_covers_small` and `path_covers_large`: the URLs of the roms that have a cover, in their order. */
  function PathCovers(resources: string, c: Collection, roms: seq<Rom>, size: CoverSize): (r: seq<string>)
    ensures |r| <= RomCount(roms)
  {
    if roms == [] then []
    else
      var p := RomCover(roms[0], size);
      (if p.Some? && p.value != [] then [CoverUrl(resources, p.value, c.updatedAt)] else [])
        + PathCovers(resources, c, roms[1..], size)
  }

  /** Every rom has a cover exactly when there are as many URLs as roms. */
  lemma {:induction false} PathCoversFull(resources: string, c: Collection, roms: seq<Rom>, size: CoverSize)
    ensures |PathCovers(resources, c, roms, size)| == |roms| <==>
      forall i | 0 <= i < |roms| :: Truthy(RomCover(roms[i], size))
  {
    if roms != [] {
      PathCoversFull(resources, c, roms[1..], size);
      assert forall i | 1 <= i < |roms| :: roms[1..][i - 1] == roms[i];
    }
  }

  /** The URLs are those of the stored covers that are not empty, and of nothing else. */
  lemma {:induction false} PathCoversMembers(resources: string, c: Collection, roms: seq<Rom>, size: CoverSize, u: string)
    ensures u in PathCovers(resources, c, roms, size) <==>
      exists i | 0 <= i < |roms| :: Truthy(RomCover(roms[i], size)) && u == CoverUrl(resources, RomCover(roms[i], size).value, c.updatedAt)
  {
    if roms != [] {
      PathCoversMembers(resources, c, roms[1..], size, u);
      if u in PathCovers(resources, c, roms[1..], size) {
        var i :| 1 <= i + 1 < |roms| && Truthy(RomCover(roms[1..][i], size))
          && u == CoverUrl(resources, RomCover(roms[1..][i], size).value, c.updatedAt);
        assert roms[1..][i] == roms[i + 1];
      }
      if exists i | 0 <= i < |roms| :: Truthy(RomCover(roms[i], size)) && u == CoverUrl(resources, RomCover(roms[i], size).value, c.updatedAt) {
        var i :| 0 <= i < |roms| && Truthy(RomCover(roms[i], size)) && u == CoverUrl(resources, RomCover(roms[i], size).value, c.updatedAt);
        if i > 0 {
          assert roms[1..][i - 1] == roms[i];
        }
      }
    }
  }

  /** The URL lists keep the roms' order: the roms of two parts give the two lists one after the other. */
  lemma {:induction false} PathCoversAppend(resources: string, c: Collection, a: seq<Rom>, b: seq<Rom>, size: CoverSize)
    ensures PathCovers(resources, c, a + b, size) == PathCovers(resources, c, a, size) + PathCovers(resources, c, b, size)
  {
    if a != [] {
      var p := RomCover(a[0], size);
      var head := if p.Some? && p.value != [] then [CoverUrl(resources, p.value, c.updatedAt)] else [];
      assert (a + b)[0] == a[0] && (a + b)[1..] == a[1..] + b;
      assert PathCovers(resources, c, a + b, size) == head + PathCovers(resources, c, a[1..] + b, size);
      PathCoversAppend(resources, c, a[1..], b, size);
      AppendAssoc(head, PathCovers(resources, c, a[1..], size), PathCovers(resources, c, b, size));
    } else {
      assert a + b == b;
    }
  }

  /** `is_favorite`. */
  predicate IsFavorite(c: Collection) {
    Lower(c.name) == "favourites"
  }

  /** An ASCII letter is lowered to `y` exactly when it is `y` or the capital of `y`. */
  lemma LowerCharIs(x: char, y: char)
    requires 'a' <= y <= 'z'
    ensures LowerChar(x) == y <==> x == y || x as int == y as int - 32
  {
  }

  /** The favourites collection is the one named "favourites" in any mix of cases, British spelling only. */
  lemma IsFavoriteIff(c: Collection)
    ensures IsFavorite(c) <==>
      (|c.name| == 10 && forall i | 0 <= i < 10 :: c.name[i] == "favourites"[i] || c.name[i] == "FAVOURITES"[i])
  {
    var f := "favourites";
    if |c.name| == 10 {
      forall i | 0 <= i < 10 ensures LowerChar(c.name[i]) == f[i] <==> c.name[i] == f[i] || c.name[i] == "FAVOURITES"[i] {
        LowerCharIs(c.name[i], f[i]);
      }
      if forall i | 0 <= i < 10 :: LowerChar(c.name[i]) == f[i] {
        assert Lower(c.name) == f;
      }
      if IsFavorite(c) {
        assert forall i | 0 <= i < 10 :: Lower(c.name)[i] == f[i];
      }
    }
  }

  lemma AmericanSpellingIsNotFavourite(c: Collection)
    requires c.name == "Favorites"
    ensures !IsFavorite(c)
  {
    assert |Lower(c.name)| == 9;
  }

  // ---------------------------------------------------------------------
  // Virtual collection

  /**
   * A row of the `virtual_collections` view, keyed by name and type; the
   * cover paths and rom ids are stored lists.
   */
  datatype VirtualCollection = VirtualCollection(
    name: string,
    collectionType: string,
    description: Option<string>,
    pathCoversS: seq<string>,
    pathCoversL: seq<string>,
    romIds: seq<int>,
    updatedAt: string)

  function StoredCovers(v: VirtualCollection, size: CoverSize): seq<string> {
    if size == Small then v.pathCoversS else v.pathCoversL
  }

  /**
   * The id of a virtual collection: the JSON object of its name and type,
   * in UTF-8, in the URL-safe base64 alphabet; every character of it may
   * stand in a URL.
   */
  function VirtualId(name: string, collectionType: string): (id: string)
    ensures forall i | 0 <= i < |id| :: Base64Url.IsUrlSafeChar(id[i])
  {
    Base64Url.Encode(Utf8.Encode(JsonText.DumpsNameType(name, collectionType)))
  }

  /** Why reading an id back raises. */
  datatype FromIdError =
    | InvalidBase64(base64: Base64Url.Base64Error)
    | NotUtf8
    | InvalidJson(json: JsonText.JsonError)
    | MissingKey(key: string)

  /**
   * `VirtualCollection.from_id`: the name and type an id stands for.  The
   * stages run in order, and the first that fails decides the error: the
   * base64 decoding, the UTF-8 decoding, the JSON reading, then the `name`
   * key before the `type` key.
   */
  function FromId(id: string): (r: Result<(string, string), FromIdError>)
    ensures Base64Url.Decode(id).Failure? ==> r == Failure(InvalidBase64(Base64Url.Decode(id).error))
    ensures Base64Url.Decode(id).Success? ==>
      var text := Utf8.Decode(Base64Url.Decode(id).value);
      && (text.None? ==> r == Failure(NotUtf8))
      && (text.Some? && JsonText.Loads(text.value).Failure? ==>
            r == Failure(InvalidJson(JsonText.Loads(text.value).error)))
      && (text.Some? && JsonText.Loads(text.value).Success? ==>
            var data := JsonText.Loads(text.value).value;
            && ("name" !in data ==> r == Failure(MissingKey("name")))
            && ("name" in data && "type" !in data ==> r == Failure(MissingKey("type")))
            && ("name" in data && "type" in data ==> r == Success((data["name"], data["type"]))))
  {
    match Base64Url.Decode(id)
    case Failure(e) => Failure(InvalidBase64(e))
    case Success(bytes) =>
      match Utf8.Decode(bytes)
      case None => Failure(NotUtf8)
      case Some(text) =>
        match JsonText.Loads(text)
        case Failure(e) => Failure(InvalidJson(e))
        case Success(data) =>
          if "name" !in data then Failure(MissingKey("name"))
          else if "type" !in data then Failure(MissingKey("type"))
          else Success((data["name"], data["type"]))
  }

  /** How reading an id goes when each stage succeeds. */
  lemma FromIdSteps(id: string, bytes: seq<Byte>, text: string, data: map<string, string>)
    requires Base64Url.Decode(id) == Success(bytes)
    requires Utf8.Decode(bytes) == Some(text)
    requires JsonText.Loads(text) == Success(data)
    requires "name" in data && "type" in data
    ensures FromId(id) == Success((data["name"], data["type"]))
  {
  }

  /** Reading an id back gives the name and type it was made from. */
  lemma FromIdRoundTrip(name: string, collectionType: string)
    ensures FromId(VirtualId(name, collectionType)) == Success((name, collectionType))
  {
    var text := JsonText.DumpsNameType(name, collectionType);
    var bytes := Utf8.Encode(text);
    var id := Base64Url.Encode(bytes);
    var data := map["name" := name, "type" := collectionType];
    assert Base64Url.Decode(id) == Success(bytes) by { Base64Url.DecodeEncode(bytes); }
    assert Utf8.Decode(bytes) == Some(text) by { Utf8.DecodeEncode(text); }
    assert JsonText.Loads(text) == Success(data) by { JsonText.LoadsDumps(name, collectionType); }
    assert "name" in data && "type" in data && data["name"] == name && data["type"] == collectionType;
    FromIdSteps(id, bytes, text, data);
  }

  /** Two virtual collections share an id only when they share the name and the type, the view's key. */
  lemma VirtualIdInjective(n1: string, t1: string, n2: string, t2: string)
    requires VirtualId(n1, t1) == VirtualId(n2, t2)
    ensures n1 == n2 && t1 == t2
  {
    FromIdRoundTrip(n1, t1);
    FromIdRoundTrip(n2, t2);
  }

  /** The empty id is valid base64 of no bytes, whose text is not a JSON object. */
  lemma EmptyIdRejected()
    ensures FromId("") == Failure(InvalidJson(JsonText.ExpectingObject))
  {
    assert Base64Url.Decode("") == Success([]);
  }

  /** `VirtualCollection.rom_count`. */
  function VirtualRomCount(v: VirtualCollection): (n: nat)
    ensures n == |v.romIds|
  {
    |v.romIds|
  }

  /** A virtual collection whose stored ids are those of some roms counts as many as a collection of those roms. */
  lemma VirtualRomCountAgrees(v: VirtualCollection, roms: seq<Rom>)
    requires v.romIds == RomIds(roms)
    ensures VirtualRomCount(v) == RomCount(roms)
  {
  }

  /** `path_cover_small` and `path_cover_large` of a virtual collection: never a cover. */
  function VirtualPathCover(v: VirtualCollection, size: CoverSize): (r: Option<string>)
    ensures r.None?
  {
    None
  }

  /** `path_covers_small` and `path_covers_large` of a virtual collection: one URL per stored path, in order. */
  function VirtualPathCovers(resources: string, v: VirtualCollection, size: CoverSize): (r: seq<string>)
    ensures |r| == |StoredCovers(v, size)|
    ensures forall i | 0 <= i < |r| :: r[i] == CoverUrl(resources, StoredCovers(v, size)[i], v.updatedAt)
  {
    UrlsOf(resources, StoredCovers(v, size), v.updatedAt)
  }

  function UrlsOf(resources: string, paths: seq<string>, updatedAt: string): (r: seq<string>)
    ensures |r| == |paths|
    ensures forall i | 0 <= i < |r| :: r[i] == CoverUrl(resources, paths[i], updatedAt)
  {
    if paths == [] then [] else [CoverUrl(resources, paths[0], updatedAt)] + UrlsOf(resources, paths[1..], updatedAt)
  }

  /** The non-empty cover paths of some roms, in their order: what a virtual collection stores of them. */
  function CoverPaths(roms: seq<Rom>, size: CoverSize): seq<string> {
    if roms == [] then []
    else
      var p := RomCover(roms[0], size);
      (if p.Some? && p.value != [] then [p.value] else []) + CoverPaths(roms[1..], size)
  }

  /**
   * A virtual collection that stores the cover paths of some roms lists the
   * same URLs as a collection of those roms updated at the same time.
   */
  lemma {:induction false} VirtualCoversAgree(resources: string, v: VirtualCollection, c: Collection, roms: seq<Rom>, size: CoverSize)
    requires StoredCovers(v, size) == CoverPaths(roms, size) && v.updatedAt == c.updatedAt
    ensures VirtualPathCovers(resources, v, size) == PathCovers(resources, c, roms, size)
  {
    UrlsOfCoverPaths(resources, c, roms, size);
  }

  lemma {:induction false} UrlsOfCoverPaths(resources: string, c: Collection, roms: seq<Rom>, size: CoverSize)
    ensures UrlsOf(resources, CoverPaths(roms, size), c.updatedAt) == PathCovers(resources, c, roms, size)
  {
    if roms != [] {
      UrlsOfCoverPaths(resources, c, roms[1..], size);
      var p := RomCover(roms[0], size);
      if p.Some? && p.value != [] {
        assert CoverPaths(roms, size) == [p.value] + CoverPaths(roms[1..], size);
        assert CoverPaths(roms, size)[1..] == CoverPaths(roms[1..], size);
      } else {
        assert CoverPaths(roms, size) == CoverPaths(roms[1..], size);
      }
    }
  }
}
