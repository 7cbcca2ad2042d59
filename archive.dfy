/**
 * The asset indexer (backend/app/agents/archive.py): a directory walk turns
 * media files into assets of a project, without indexing a file twice.
 */
module Archive {
  import opened Basics
  import opened Models
  import opened Text
  import opened PosixPath
  import Query
  import opened Store

  const IndexedExtensions: set<string> := {".jpg", ".jpeg", ".png", ".pdf", ".mp3", ".wav"}
  const PhotoExtensions: seq<string> := [".jpg", ".jpeg", ".png"]
  const AudioExtensions: seq<string> := [".mp3", ".wav"]

  /** The extension `scan_directory` looks at: `os.path.splitext(file)[1].lower()`. */
  function FileExtension(file: string): string {
    Lower(SplitExt(file).1)
  }

  /** Whether a file with this (lower-cased) extension is indexed, and as what. */
  function AssetTypeFor(ext: string): (t: Option<AssetType>)
    ensures t.Some? <==> ext in IndexedExtensions
    ensures t == Some(Photo) <==> ext in {".jpg", ".jpeg", ".png"}
    ensures t == Some(Audio) <==> ext in {".mp3", ".wav"}
    ensures t == Some(VerificationDoc) <==> ext == ".pdf"
    ensures t != Some(Poster) && t != Some(Menu)
  {
    if ext !in IndexedExtensions then None
    else if ext in PhotoExtensions then Some(Photo)
    else if ext in AudioExtensions then Some(Audio)
    else Some(VerificationDoc)
  }

  /** One directory of `os.walk`: its path and the names of the files in it (subdirectories are walked as entries of their own). */
  datatype WalkEntry = WalkEntry(root: string, files: seq<string>)

  /** The (directory, file name) pairs of one walk entry, in order. */
  function Pairs(e: WalkEntry): (ps: seq<(string, string)>)
    ensures |ps| == |e.files| && forall i :: 0 <= i < |ps| ==> ps[i] == (e.root, e.files[i])
  {
    seq(|e.files|, i requires 0 <= i < |e.files| => (e.root, e.files[i]))
  }

  /** Taking one more file of an entry extends the walk so far by that file. */
  lemma PairsGrow(done: seq<(string, string)>, e: WalkEntry, j: nat)
    requires j < |e.files|
    ensures (done + Pairs(e)[..j]) + [(e.root, e.files[j])] == done + Pairs(e)[..j + 1]
  {
    assert Pairs(e)[..j + 1] == Pairs(e)[..j] + [(e.root, e.files[j])];
  }

  /** Every file of the walk, in walk order. */
  function Candidates(walk: seq<WalkEntry>): seq<(string, string)> {
    if walk == [] then [] else Candidates(walk[..|walk| - 1]) + Pairs(walk[|walk| - 1])
  }

  /** The duplicate lookup: some stored asset of the project has this path. */
  predicate AlreadyIndexed(existing: map<Id, Asset>, path: string, projectId: Id) {
    exists k :: k in existing && existing[k].file_path == path && existing[k].project_id == projectId
  }

  /** No two stored assets of one project share a file path. */
  ghost predicate UniquePathsPerProject(assets: map<Id, Asset>) {
    forall k, l ::
      k in assets && l in assets && assets[k].file_path == assets[l].file_path && assets[k].project_id == assets[l].project_id
      ==> k == l
  }

  /** One file of the walk as the scan sees it: its joined path and the asset type its extension gives, if any. */
  datatype Item = Item(path: string, kind: Option<AssetType>)

  /** An extension lower-cases to an indexed one exactly when it matches that one ignoring ASCII case. */
  lemma ExtensionMatches(ext: string)
    ensures forall e :: e in IndexedExtensions ==> (Lower(ext) == e <==> MatchesIgnoringCase(ext, e))
  {
    forall e | e in IndexedExtensions ensures Lower(ext) == e <==> MatchesIgnoringCase(ext, e) {
      LowerMatches(ext, e);
    }
  }

  /**
   * What the scan computes for the file `c.1` in directory `c.0`: the joined
   * path, and a type exactly when the file's extension is one of the six
   * indexed ones up to ASCII case (so "photo.JPG" is a photo), namely the
   * type of that extension.
   */
  function Classify(c: (string, string)): (it: Item)
    ensures it.path == Join(c.0, c.1)
    ensures it.kind.Some? <==> exists e :: e in IndexedExtensions && MatchesIgnoringCase(SplitExt(c.1).1, e)
    ensures forall e :: e in IndexedExtensions && MatchesIgnoringCase(SplitExt(c.1).1, e) ==> it.kind == AssetTypeFor(e)
  {
    ExtensionMatches(SplitExt(c.1).1);
    Item(Join(c.0, c.1), AssetTypeFor(FileExtension(c.1)))
  }

  /** The walk's files as the scan sees them, in order. */
  function Items(files: seq<(string, string)>): (r: seq<Item>)
    ensures |r| == |files| && forall i :: 0 <= i < |r| ==> r[i] == Classify(files[i])
  {
    seq(|files|, i requires 0 <= i < |files| => Classify(files[i]))
  }

  lemma ItemsSnoc(files: seq<(string, string)>, c: (string, string))
    ensures Items(files + [c]) == Items(files) + [Classify(c)]
  {
  }

  /** Where a scan stands: the asset table, the next free key, and the assets added so far. */
  datatype ScanState = ScanState(assets: map<Id, Asset>, nextId: nat, added: seq<Asset>)

  /** The state after adding asset `a` under the next free key. */
  function Append(st: ScanState, a: Asset): ScanState {
    ScanState(st.assets[st.nextId := a], st.nextId + 1, st.added + [a])
  }

  /** The asset the scan creates for a new media file: the project's, with rights Unknown and usage Print. */
  function NewAsset(id: Id, projectId: Id, t: AssetType, path: string): Asset {
    AssetRow(id, projectId, t, path, Some(Unknown), None, Some(Print), None)
  }

  /**
   * The scan's step for one file. The duplicate lookup asks the store as it
   * was when the scan began: the session does not flush the assets it has
   * added before it queries (autoflush is off).
   */
  function ScanItem(existing: map<Id, Asset>, projectId: Id, st: ScanState, it: Item): ScanState {
    if it.kind.None? || AlreadyIndexed(existing, it.path, projectId) then st
    else Append(st, NewAsset(st.nextId, projectId, it.kind.value, it.path))
  }

  /** The scan's steps for `items`, in order, from `start`. */
  function ScanItems(existing: map<Id, Asset>, projectId: Id, start: ScanState, items: seq<Item>): ScanState
    decreases |items|
  {
    if items == [] then start
    else ScanItem(existing, projectId, ScanItems(existing, projectId, start, items[..|items| - 1]), items[|items| - 1])
  }

  /** Scanning one more file is one more step. */
  lemma ScanItemsSnoc(existing: map<Id, Asset>, projectId: Id, start: ScanState, files: seq<(string, string)>, c: (string, string))
    ensures ScanItems(existing, projectId, start, Items(files + [c]))
         == ScanItem(existing, projectId, ScanItems(existing, projectId, start, Items(files)), Classify(c))
  {
    ItemsSnoc(files, c);
    assert Items(files + [c])[..|files|] == Items(files);
  }

  /** A whole scan of `files` into the table `assets` whose free keys start at `nextId`. */
  function Scan(assets: map<Id, Asset>, nextId: nat, projectId: Id, files: seq<(string, string)>): ScanState {
    ScanItems(assets, projectId, ScanState(assets, nextId, []), Items(files))
  }

  /** What a scan keeps true from its start: the stored rows stay, and the i-th added asset sits under key nextId + i. */
  ghost predicate Grown(assets: map<Id, Asset>, nextId: nat, st: ScanState) {
    && st.nextId == nextId + |st.added|
    && (forall k :: k in st.assets ==> k < st.nextId)
    && (forall k :: k in st.assets ==> k in assets || nextId <= k)
    && (forall k :: k in assets ==> k in st.assets && st.assets[k] == assets[k])
    && (forall i :: 0 <= i < |st.added| ==>
          st.added[i].id == nextId + i && nextId + i in st.assets && st.assets[nextId + i] == st.added[i])
  }

  /** One step of a scan keeps what the scan keeps true. */
  lemma GrownStep(assets: map<Id, Asset>, nextId: nat, st: ScanState, a: Asset)
    requires Grown(assets, nextId, st) && a.id == st.nextId
    ensures Grown(assets, nextId, Append(st, a))
  {
    var next := Append(st, a);
    assert st.nextId !in st.assets;
    forall i | 0 <= i < |next.added|
      ensures next.added[i].id == nextId + i && nextId + i in next.assets && next.assets[nextId + i] == next.added[i]
    {
      if i < |st.added| { assert next.added[i] == st.added[i]; }
    }
  }

  /**
   * The table grows by exactly the added assets, under fresh consecutive
   * keys, and the rows already stored are kept as they were.
   */
  lemma {:induction false} ScanItemsGrows(assets: map<Id, Asset>, nextId: nat, projectId: Id, items: seq<Item>)
    requires forall k :: k in assets ==> k < nextId
    ensures Grown(assets, nextId, ScanItems(assets, projectId, ScanState(assets, nextId, []), items))
    decreases |items|
  {
    if items != [] {
      var front, last := items[..|items| - 1], items[|items| - 1];
      ScanItemsGrows(assets, nextId, projectId, front);
      var before := ScanItems(assets, projectId, ScanState(assets, nextId, []), front);
      if last.kind.Some? && !AlreadyIndexed(assets, last.path, projectId) {
        GrownStep(assets, nextId, before, NewAsset(before.nextId, projectId, last.kind.value, last.path));
      }
    }
  }

  /** `ScanItemsGrows` for a whole scan. */
  lemma ScanGrowsByAdded(assets: map<Id, Asset>, nextId: nat, projectId: Id, files: seq<(string, string)>)
    requires forall k :: k in assets ==> k < nextId
    ensures Grown(assets, nextId, Scan(assets, nextId, projectId, files))
  {
    ScanItemsGrows(assets, nextId, projectId, Items(files));
  }

  /**
   * `a` is an asset the scan may add for `items`: the project's, with the
   * defaults, for a media file of the walk not yet indexed, with that file's
   * path and type.
   */
  ghost predicate AdmittedItem(existing: map<Id, Asset>, projectId: Id, items: seq<Item>, a: Asset) {
    && a.project_id == projectId && a.rights_status == Unknown && a.usage_scope == Print
    && a.credit_line == None && !a.is_selected_for_book
    && !AlreadyIndexed(existing, a.file_path, projectId)
    && exists it :: it in items && a.file_path == it.path && it.kind == Some(a.asset_type)
  }

  lemma {:induction false} ScanItemsAddsNewMediaOnly(assets: map<Id, Asset>, nextId: nat, projectId: Id, items: seq<Item>)
    ensures forall a :: a in ScanItems(assets, projectId, ScanState(assets, nextId, []), items).added ==>
                          AdmittedItem(assets, projectId, items, a)
    decreases |items|
  {
    if items != [] {
      var front, last := items[..|items| - 1], items[|items| - 1];
      ScanItemsAddsNewMediaOnly(assets, nextId, projectId, front);
      var before := ScanItems(assets, projectId, ScanState(assets, nextId, []), front);
      forall a | a in before.added ensures AdmittedItem(assets, projectId, items, a) {
        var it :| it in front && a.file_path == it.path && it.kind == Some(a.asset_type);
        assert it in items;
      }
      if last.kind.Some? && !AlreadyIndexed(assets, last.path, projectId) {
        var a := NewAsset(before.nextId, projectId, last.kind.value, last.path);
        assert last in items;
        assert AdmittedItem(assets, projectId, items, a);
      }
    }
  }

  /**
   * Every added asset belongs to the project, has the path and type of a
   * media file of the walk that was not yet indexed, and carries the
   * defaults: rights Unknown, usage Print, no credit line, not selected.
   */
  lemma ScanAddsNewMediaOnly(assets: map<Id, Asset>, nextId: nat, projectId: Id, files: seq<(string, string)>, a: Asset)
    requires a in Scan(assets, nextId, projectId, files).added
    ensures && a.project_id == projectId && a.rights_status == Unknown && a.usage_scope == Print
            && a.credit_line == None && !a.is_selected_for_book
            && !AlreadyIndexed(assets, a.file_path, projectId)
    ensures exists i :: 0 <= i < |files| && Classify(files[i]) == Item(a.file_path, Some(a.asset_type))
  {
    var items := Items(files);
    ScanItemsAddsNewMediaOnly(assets, nextId, projectId, items);
    assert AdmittedItem(assets, projectId, items, a);
    var it :| it in items && a.file_path == it.path && it.kind == Some(a.asset_type);
    var i :| 0 <= i < |items| && items[i] == it;
    assert items[i] == Classify(files[i]);
    assert Item(a.file_path, Some(a.asset_type)) == it;
  }

  /** Every media item has an asset of the project with its path in `table`. */
  ghost predicate IndexesAll(table: map<Id, Asset>, projectId: Id, items: seq<Item>) {
    forall it :: it in items && it.kind.Some? ==> AlreadyIndexed(table, it.path, projectId)
  }

  lemma IndexedStaysIndexed(table: map<Id, Asset>, bigger: map<Id, Asset>, path: string, projectId: Id)
    requires AlreadyIndexed(table, path, projectId)
    requires forall k :: k in table ==> k in bigger && bigger[k] == table[k]
    ensures AlreadyIndexed(bigger, path, projectId)
  {
    var k :| k in table && table[k].file_path == path && table[k].project_id == projectId;
    assert bigger[k] == table[k];
  }

  lemma {:induction false} ScanItemsIndexesAll(assets: map<Id, Asset>, nextId: nat, projectId: Id, items: seq<Item>)
    requires forall k :: k in assets ==> k < nextId
    ensures IndexesAll(ScanItems(assets, projectId, ScanState(assets, nextId, []), items).assets, projectId, items)
    decreases |items|
  {
    if items != [] {
      var front, last := items[..|items| - 1], items[|items| - 1];
      var before := ScanItems(assets, projectId, ScanState(assets, nextId, []), front);
      var after := ScanItems(assets, projectId, ScanState(assets, nextId, []), items);
      ScanItemsIndexesAll(assets, nextId, projectId, front);
      ScanItemsGrows(assets, nextId, projectId, front);
      assert before.nextId !in before.assets;
      assert forall k :: k in before.assets ==> k in after.assets && after.assets[k] == before.assets[k];
      forall it | it in items && it.kind.Some?
        ensures AlreadyIndexed(after.assets, it.path, projectId)
      {
        if it in front {
          IndexedStaysIndexed(before.assets, after.assets, it.path, projectId);
        } else if AlreadyIndexed(assets, it.path, projectId) {
          IndexedStaysIndexed(assets, after.assets, it.path, projectId);
        } else {
          assert it == last;
          assert after.assets[before.nextId].file_path == it.path;
        }
      }
    }
  }

  /** After a scan, every media file of the walk has an asset of the project with its path. */
  lemma ScanIndexesEveryMediaFile(assets: map<Id, Asset>, nextId: nat, projectId: Id, files: seq<(string, string)>)
    requires forall k :: k in assets ==> k < nextId
    ensures forall i :: 0 <= i < |files| && AssetTypeFor(FileExtension(files[i].1)).Some? ==>
              AlreadyIndexed(Scan(assets, nextId, projectId, files).assets, Join(files[i].0, files[i].1), projectId)
  {
    ScanItemsIndexesAll(assets, nextId, projectId, Items(files));
    forall i | 0 <= i < |files| && AssetTypeFor(FileExtension(files[i].1)).Some?
      ensures AlreadyIndexed(Scan(assets, nextId, projectId, files).assets, Join(files[i].0, files[i].1), projectId)
    {
      assert Items(files)[i] in Items(files);
    }
  }

  /** A scan in which every media item is already indexed changes nothing. */
  lemma {:induction false} ScanOfIndexedItemsIsNoOp(existing: map<Id, Asset>, projectId: Id, start: ScanState, items: seq<Item>)
    requires IndexesAll(existing, projectId, items)
    ensures ScanItems(existing, projectId, start, items) == start
    decreases |items|
  {
    if items != [] {
      var front := items[..|items| - 1];
      assert items[|items| - 1] in items;
      assert forall it :: it in front ==> it in items;
      ScanOfIndexedItemsIsNoOp(existing, projectId, start, front);
    }
  }

  /** Scanning an unchanged directory a second time adds nothing and leaves the store as it is. */
  lemma RescanAddsNothing(assets: map<Id, Asset>, nextId: nat, projectId: Id, files: seq<(string, string)>)
    requires forall k :: k in assets ==> k < nextId
    ensures var first := Scan(assets, nextId, projectId, files);
            Scan(first.assets, first.nextId, projectId, files) == ScanState(first.assets, first.nextId, [])
  {
    var first := Scan(assets, nextId, projectId, files);
    ScanItemsIndexesAll(assets, nextId, projectId, Items(files));
    ScanOfIndexedItemsIsNoOp(first.assets, projectId, ScanState(first.assets, first.nextId, []), Items(files));
  }

  /** The items' paths differ pairwise. */
  ghost predicate DistinctItemPaths(items: seq<Item>) {
    forall i, j :: 0 <= i < j < |items| ==> items[i].path != items[j].path
  }

  /** A path no earlier item has is not yet among the project's assets after the scan of those items. */
  lemma PathIsNew(assets: map<Id, Asset>, nextId: nat, projectId: Id, front: seq<Item>, before: ScanState, path: string)
    requires forall k :: k in assets ==> k < nextId
    requires before == ScanItems(assets, projectId, ScanState(assets, nextId, []), front)
    requires forall it :: it in front ==> it.path != path
    requires !AlreadyIndexed(assets, path, projectId)
    ensures forall k :: k in before.assets && before.assets[k].project_id == projectId ==> before.assets[k].file_path != path
  {
    ScanItemsGrows(assets, nextId, projectId, front);
    ScanItemsAddsNewMediaOnly(assets, nextId, projectId, front);
    forall k | k in before.assets && before.assets[k].project_id == projectId
      ensures before.assets[k].file_path != path
    {
      if k !in assets {
        var i := k - nextId;
        assert before.added[i] in before.added;
      }
    }
  }

  lemma NewPathKeepsUnique(table: map<Id, Asset>, id: Id, a: Asset)
    requires UniquePathsPerProject(table) && id !in table
    requires forall k :: k in table && table[k].project_id == a.project_id ==> table[k].file_path != a.file_path
    ensures UniquePathsPerProject(table[id := a])
  {
  }

  lemma {:induction false} ScanItemsKeepsPathsUnique(assets: map<Id, Asset>, nextId: nat, projectId: Id, items: seq<Item>)
    requires forall k :: k in assets ==> k < nextId
    requires UniquePathsPerProject(assets)
    requires DistinctItemPaths(items)
    ensures UniquePathsPerProject(ScanItems(assets, projectId, ScanState(assets, nextId, []), items).assets)
    decreases |items|
  {
    if items != [] {
      var front, last := items[..|items| - 1], items[|items| - 1];
      var before := ScanItems(assets, projectId, ScanState(assets, nextId, []), front);
      assert DistinctItemPaths(front);
      ScanItemsKeepsPathsUnique(assets, nextId, projectId, front);
      if last.kind.Some? && !AlreadyIndexed(assets, last.path, projectId) {
        ScanItemsGrows(assets, nextId, projectId, front);
        forall it | it in front ensures it.path != last.path {
          var n :| 0 <= n < |front| && front[n] == it;
          assert items[n] == it;
        }
        PathIsNew(assets, nextId, projectId, front, before, last.path);
        var a := NewAsset(before.nextId, projectId, last.kind.value, last.path);
        assert a.project_id == projectId && a.file_path == last.path;
        NewPathKeepsUnique(before.assets, before.nextId, a);
      }
    }
  }

  /**
   * A scan never makes the store hold two assets of one project with the
   * same path, provided the walk lists each full path once (as `os.walk`
   * does).
   */
  lemma ScanKeepsPathsUnique(assets: map<Id, Asset>, nextId: nat, projectId: Id, files: seq<(string, string)>)
    requires forall k :: k in assets ==> k < nextId
    requires UniquePathsPerProject(assets)
    requires forall i, j :: 0 <= i < j < |files| ==> Join(files[i].0, files[i].1) != Join(files[j].0, files[j].1)
    ensures UniquePathsPerProject(Scan(assets, nextId, projectId, files).assets)
  {
    ScanItemsKeepsPathsUnique(assets, nextId, projectId, Items(files));
  }

  /** `update_asset_metadata` on one asset: the rights status and credit line are replaced, and nothing else. */
  function WithMetadata(a: Asset, rights: RightsStatus, creditLine: Option<string>): (r: Asset)
    ensures r.rights_status == rights && r.credit_line == creditLine
    ensures r.(rights_status := a.rights_status, credit_line := a.credit_line) == a
  {
    a.(rights_status := rights, credit_line := creditLine)
  }

  class ArchiveAgent {
    const db: Database

    constructor (db: Database)
      ensures this.db == db
    {
      this.db := db;
    }

    /** `get_assets`: exactly the project's assets, each once (the query sets no order). */
    function GetAssets(projectId: Id): (r: seq<Asset>)
      reads db
      requires db.Valid()
      ensures forall a :: a in r <==> a in db.assets.Values && a.project_id == projectId
      ensures Query.Distinct(r)
    {
      Query.RowsOfKeyedTable(db.assets, AssetKey, db.nextId);
      Query.Filter(Query.Rows(db.assets, db.nextId), (a: Asset) => a.project_id == projectId)
    }

    /**
     * `scan_directory`: a directory that does not exist is an error and adds
     * nothing; otherwise every media file of the walk not yet indexed for
     * the project becomes a new asset, and the new assets are returned in
     * walk order. Whether the directory exists and what the walk yields are
     * inputs: the file system is not modelled.
     */
    method ScanDirectory(projectId: Id, directoryPath: string, directoryExists: bool, walk: seq<WalkEntry>)
      returns (r: Result<seq<Asset>, string>)
      requires db.Valid()
      modifies db`assets, db`nextId
      ensures db.Valid()
      ensures !directoryExists ==>
                r == Err("Directory not found: " + directoryPath)
                && db.assets == old(db.assets) && db.nextId == old(db.nextId)
      ensures directoryExists ==>
                var st := Scan(old(db.assets), old(db.nextId), projectId, Candidates(walk));
                r == Ok(st.added) && db.assets == st.assets && db.nextId == st.nextId
    {
      if !directoryExists {
        return Err("Directory not found: " + directoryPath);
      }
      var existing := db.assets;
      var start := ScanState(existing, db.nextId, []);
      var added: seq<Asset> := [];
      ghost var seen: seq<(string, string)> := [];
      for i := 0 to |walk|
        invariant db.Valid()
        invariant seen == Candidates(walk[..i])
        invariant ScanState(db.assets, db.nextId, added) == ScanItems(existing, projectId, start, Items(seen))
      {
        var root, files := walk[i].root, walk[i].files;
        assert walk[..i + 1][..i] == walk[..i];
        for j := 0 to |files|
          invariant db.Valid()
          invariant seen == Candidates(walk[..i]) + Pairs(walk[i])[..j]
          invariant ScanState(db.assets, db.nextId, added) == ScanItems(existing, projectId, start, Items(seen))
        {
          var file := files[j];
          var item := Classify((root, file));
          added := IndexFile(projectId, existing, item, added);
          ScanItemsSnoc(existing, projectId, start, seen, (root, file));
          PairsGrow(Candidates(walk[..i]), walk[i], j);
          seen := seen + [(root, file)];
        }
        assert Pairs(walk[i])[..|files|] == Pairs(walk[i]);
      }
      assert walk[..|walk|] == walk;
      r := Ok(added);
    }

    /**
     * The rest of `scan_directory`'s inner loop, once the file's extension
     * and path are known: a media file whose path the store did not hold
     * for the project when the scan began becomes a new asset, stored and
     * appended to `added`; any other file is skipped.
     */
    method IndexFile(projectId: Id, existing: map<Id, Asset>, item: Item, added: seq<Asset>)
      returns (added': seq<Asset>)
      requires db.Valid()
      modifies db`assets, db`nextId
      ensures db.Valid()
      ensures ScanState(db.assets, db.nextId, added')
           == ScanItem(existing, projectId, ScanState(old(db.assets), old(db.nextId), added), item)
    {
      added' := added;
      if item.kind.Some? && !AlreadyIndexed(existing, item.path, projectId) {
        var id := db.NewId();
        var asset := NewAsset(id, projectId, item.kind.value, item.path);
        db.AddAsset(asset);
        added' := added + [asset];
      }
    }

    /**
     * `update_asset_metadata`: on a stored asset, replaces the rights status
     * and the credit line (an absent credit line clears it); on an unknown
     * id, answers None and changes nothing.
     */
    method UpdateAssetMetadata(assetId: Id, rights: RightsStatus, creditLine: Option<string>) returns (r: Option<Asset>)
      requires db.Valid()
      modifies db`assets
      ensures db.Valid()
      ensures assetId !in old(db.assets) ==> r == None && db.assets == old(db.assets)
      ensures assetId in old(db.assets) ==>
                r == Some(WithMetadata(old(db.assets)[assetId], rights, creditLine))
                && db.assets == old(db.assets)[assetId := r.value]
      ensures UniquePathsPerProject(old(db.assets)) ==> UniquePathsPerProject(db.assets)
    {
      if assetId !in db.assets {
        return None;
      }
      var asset := db.assets[assetId];
      asset := asset.(rights_status := rights);
      asset := asset.(credit_line := creditLine);
      db.assets := db.assets[assetId := asset];
      r := Some(asset);
    }
  }
}
