// app/assets_manager.py: the asset library (background clips, music, sound
// effects and fonts). A relative path is resolved inside the assets
// directory or refused; tags are stored per path, under one type at a
// time; the listing of a type keeps the files with the type's extensions,
// attaches their tags, filters them by a query and sorts them by name.
module AssetsManager {
  import opened Wrappers
  import opened Text
  import ModelSetup
  import Downloads

  datatype AssetType = BgClips | Music | Sfx | Fonts

  /** The type's key in ASSET_TYPES. */
  function TypeName(t: AssetType): string
  {
    match t
    case BgClips => "bg_clips"
    case Music => "music"
    case Sfx => "sfx"
    case Fonts => "fonts"
  }

  /** The extensions a file of the type may have. */
  function Exts(t: AssetType): set<string>
  {
    match t
    case BgClips => {".mp4", ".mov", ".mkv"}
    case Music => {".mp3", ".wav", ".m4a"}
    case Sfx => {".mp3", ".wav", ".m4a"}
    case Fonts => {".ttf", ".otf"}
  }

  /** _normalize_type: the type named, or ValueError for any other name. */
  function NormalizeType(name: string): (r: Result<AssetType>)
    ensures r.Ok? <==> name in {"bg_clips", "music", "sfx", "fonts"}
    ensures r.Ok? ==> TypeName(r.value) == name
    ensures r.Err? ==> r.error == ValueError("Invalid asset type")
  {
    if name == "bg_clips" then Ok(BgClips)
    else if name == "music" then Ok(Music)
    else if name == "sfx" then Ok(Sfx)
    else if name == "fonts" then Ok(Fonts)
    else Err(ValueError("Invalid asset type"))
  }

  // ---------------------------------------------------------------------
  // resolve_asset_path

  /** str.split(c) */
  function Split(s: string, c: char): (r: seq<string>)
    ensures |r| >= 1
    ensures forall k :: 0 <= k < |r| ==> c !in r[k]
    decreases |s|
  {
    var i := Find(s, c);
    if i < 0 then [s] else [s[..i]] + Split(s[i + 1..], c)
  }

  /**
   * The lexical part of Path.resolve: from the directory `dir`, an empty or
   * "." segment stays, ".." goes up (and stays at the root), any other
   * segment goes down.
   */
  function ResolveSegments(dir: seq<string>, segs: seq<string>): seq<string>
    decreases |segs|
  {
    if segs == [] then dir
    else
      var s := segs[0];
      var next :=
        if s == "" || s == "." then dir
        else if s == ".." then (if dir == [] then [] else dir[..|dir| - 1])
        else dir + [s];
      ResolveSegments(next, segs[1..])
  }

  /** The segments of a resolved path: none empty, ".", ".." or holding "/". */
  predicate CleanPath(p: seq<string>)
  {
    forall k :: 0 <= k < |p| ==> p[k] != "" && p[k] != "." && p[k] != ".." && '/' !in p[k]
  }

  /** p is inside the directory base: is_relative_to. */
  predicate Inside(p: seq<string>, base: seq<string>)
  {
    |base| <= |p| && p[..|base|] == base
  }

  /** The stripped path with backslashes made slashes and one leading "assets/" removed. */
  function Normalized(relPath: string): string
  {
    var raw := ReplaceChar(Strip(relPath), '\\', "/");
    if StartsWith(raw, "assets/") then raw[|"assets/"|..] else raw
  }

  /**
   * resolve_asset_path, for the assets directory given by its segments: an
   * absolute path or one with ":" is invalid; a path that resolves outside
   * the assets directory is blocked; otherwise the resolved path. Symbolic
   * links are not followed.
   */
  function ResolveAssetPath(assetsDir: seq<string>, relPath: string): Result<seq<string>>
  {
    ResolveRaw(assetsDir, Normalized(relPath))
  }

  /** The checks and the resolution of the normalised path. */
  function ResolveRaw(assetsDir: seq<string>, raw: string): Result<seq<string>>
  {
    if StartsWith(raw, "/") || ':' in raw then Err(ValueError("Invalid path"))
    else
      var candidate := ResolveSegments([], assetsDir + Split(raw, '/'));
      var base := ResolveSegments([], assetsDir);
      if !Inside(candidate, base) then Err(ValueError("Path traversal blocked"))
      else Ok(candidate)
  }

  /** Resolving a path in two parts is resolving it whole. */
  lemma {:induction false} ResolveAppend(dir: seq<string>, a: seq<string>, b: seq<string>)
    ensures ResolveSegments(dir, a + b) == ResolveSegments(ResolveSegments(dir, a), b)
    decreases |a|
  {
    if a != [] {
      assert (a + b)[0] == a[0] && (a + b)[1..] == a[1..] + b;
      var s := a[0];
      var next :=
        if s == "" || s == "." then dir
        else if s == ".." then (if dir == [] then [] else dir[..|dir| - 1])
        else dir + [s];
      ResolveAppend(next, a[1..], b);
    } else {
      assert a + b == b;
    }
  }

  /** Resolving segments without "/" keeps a clean directory clean. */
  lemma {:induction false} ResolveClean(dir: seq<string>, segs: seq<string>)
    requires CleanPath(dir)
    requires forall k :: 0 <= k < |segs| ==> '/' !in segs[k]
    ensures CleanPath(ResolveSegments(dir, segs))
    decreases |segs|
  {
    if segs != [] {
      var s := segs[0];
      var next :=
        if s == "" || s == "." then dir
        else if s == ".." then (if dir == [] then [] else dir[..|dir| - 1])
        else dir + [s];
      assert CleanPath(next);
      ResolveClean(next, segs[1..]);
    }
  }

  /** Segments without ".." only ever go down: the result extends the directory. */
  lemma {:induction false} ResolveDescends(dir: seq<string>, segs: seq<string>)
    requires forall k :: 0 <= k < |segs| ==> segs[k] != ".."
    ensures Inside(ResolveSegments(dir, segs), dir)
    decreases |segs|
  {
    if segs != [] {
      var s := segs[0];
      var next := if s == "" || s == "." then dir else dir + [s];
      ResolveDescends(next, segs[1..]);
      var r := ResolveSegments(dir, segs);
      assert r[..|dir|] == r[..|next|][..|dir|];
    }
  }

  /**
   * An accepted path lies inside the resolved assets directory and is clean:
   * no segment of it is empty, "." or "..".
   */
  lemma ResolvedInside(assetsDir: seq<string>, relPath: string)
    requires forall k :: 0 <= k < |assetsDir| ==> '/' !in assetsDir[k]
    ensures ResolveAssetPath(assetsDir, relPath).Ok? ==>
      && Inside(ResolveAssetPath(assetsDir, relPath).value, ResolveSegments([], assetsDir))
      && CleanPath(ResolveAssetPath(assetsDir, relPath).value)
  {
    var segs := assetsDir + Split(Normalized(relPath), '/');
    ResolveClean([], segs);
  }

  /** A path that is not absolute, has no ":" and no ".." segment is accepted. */
  lemma ResolveAccepts(assetsDir: seq<string>, relPath: string)
    requires !StartsWith(Normalized(relPath), "/") && ':' !in Normalized(relPath)
    requires forall k :: 0 <= k < |Split(Normalized(relPath), '/')| ==> Split(Normalized(relPath), '/')[k] != ".."
    ensures ResolveAssetPath(assetsDir, relPath).Ok?
  {
    var segs := Split(Normalized(relPath), '/');
    ResolveAppend([], assetsDir, segs);
    ResolveDescends(ResolveSegments([], assetsDir), segs);
  }

  /** A leading "/" or any ":" after normalising is refused as an invalid path. */
  lemma ResolveRejects(assetsDir: seq<string>, relPath: string)
    requires StartsWith(Normalized(relPath), "/") || ':' in Normalized(relPath)
    ensures ResolveAssetPath(assetsDir, relPath) == Err(ValueError("Invalid path"))
  {
  }

  /** Clean segments go straight down. */
  lemma {:induction false} ResolveCleanDown(dir: seq<string>, segs: seq<string>)
    requires CleanPath(segs)
    ensures ResolveSegments(dir, segs) == dir + segs
    decreases |segs|
  {
    if segs != [] {
      ResolveCleanDown(dir + [segs[0]], segs[1..]);
      assert dir + [segs[0]] + segs[1..] == dir + segs;
    }
  }

  /** "../name" climbs out of a clean assets directory whose last segment is not `name`, and is blocked. */
  lemma ParentBlocked(assetsDir: seq<string>, raw: string, name: string)
    requires CleanPath(assetsDir) && assetsDir != []
    requires CleanPath([name]) && name != assetsDir[|assetsDir| - 1]
    requires !StartsWith(raw, "/") && ':' !in raw
    requires Split(raw, '/') == ["..", name]
    ensures ResolveRaw(assetsDir, raw) == Err(ValueError("Path traversal blocked"))
  {
    var n := |assetsDir| - 1;
    ResolveCleanDown([], assetsDir);
    assert [] + assetsDir == assetsDir;
    ResolveAppend([], assetsDir, ["..", name]);
    assert ResolveSegments(assetsDir, ["..", name]) == assetsDir[..n] + [name] by {
      assert ["..", name][0] == ".." && ["..", name][1..] == [name];
      assert ResolveSegments(assetsDir, ["..", name]) == ResolveSegments(assetsDir[..n], [name]);
      assert [name][0] == name && [name][1..] == [];
      assert ResolveSegments(assetsDir[..n], [name]) == ResolveSegments(assetsDir[..n] + [name], []);
    }
    var candidate := assetsDir[..n] + [name];
    assert candidate[n] != assetsDir[n];
  }

  lemma {:induction false} ReplaceCharAppend(a: string, b: string, c: char, rep: string)
    ensures ReplaceChar(a + b, c, rep) == ReplaceChar(a, c, rep) + ReplaceChar(b, c, rep)
  {
    if a != [] {
      assert (a + b)[1..] == a[1..] + b;
      ReplaceCharAppend(a[1..], b, c, rep);
    } else {
      assert a + b == b;
    }
  }

  /** Replacing backslashes keeps a stripped text stripped. */
  lemma ReplaceSlashStripped(x: string)
    requires Stripped(x)
    ensures Stripped(ReplaceChar(x, '\\', "/"))
  {
    if x != [] {
      var n := |x| - 1;
      assert x == x[..n] + [x[n]];
      ReplaceCharAppend(x[..n], [x[n]], '\\', "/");
      assert ReplaceChar([x[n]], '\\', "/") == (if x[n] == '\\' then "/" else [x[n]]);
    }
  }

  /** Backslashes are read as slashes: a path and its slashed form resolve alike. */
  lemma BackslashesAreSlashes(assetsDir: seq<string>, x: string)
    requires Stripped(x)
    ensures ResolveAssetPath(assetsDir, x) == ResolveAssetPath(assetsDir, ReplaceChar(x, '\\', "/"))
  {
    var y := ReplaceChar(x, '\\', "/");
    StripClean(x);
    ReplaceSlashStripped(x);
    StripClean(y);
    ReplaceCharAbsent(y, '\\', "/");
  }

  /** "assets/" + x is stripped when x is. */
  lemma PrefixedStripped(x: string)
    requires Stripped(x)
    ensures Strip("assets/" + x) == "assets/" + x
  {
    var p := "assets/" + x;
    assert p[0] == 'a';
    if x != [] {
      assert p[|p| - 1] == x[|x| - 1];
    }
    assert Stripped(p);
    StripClean(p);
  }

  /** Replacing backslashes leaves "assets/" alone. */
  lemma PrefixedSlashed(x: string)
    ensures ReplaceChar("assets/" + x, '\\', "/") == "assets/" + ReplaceChar(x, '\\', "/")
  {
    ReplaceCharAppend("assets/", x, '\\', "/");
    assert '\\' !in "assets/";
    ReplaceCharAbsent("assets/", '\\', "/");
  }

  /** A leading "assets/" is dropped: "assets/x" resolves as x does. */
  lemma AssetsPrefixDropped(assetsDir: seq<string>, x: string)
    requires Stripped(x)
    requires !StartsWith(ReplaceChar(x, '\\', "/"), "assets/")
    ensures ResolveAssetPath(assetsDir, "assets/" + x) == ResolveAssetPath(assetsDir, x)
  {
    var y := ReplaceChar(x, '\\', "/");
    PrefixedStripped(x);
    PrefixedSlashed(x);
    StripClean(x);
    assert ("assets/" + y)[|"assets/"|..] == y;
    assert Normalized("assets/" + x) == y;
    assert Normalized(x) == y;
  }

  // ---------------------------------------------------------------------
  // set_tags and get_tags

  /** The stripped non-empty tags, in order. */
  function CleanTags(tags: seq<string>): (r: seq<string>)
    ensures forall t :: t in r <==> exists k :: 0 <= k < |tags| && Strip(tags[k]) != "" && t == Strip(tags[k])
  {
    if tags == [] then []
    else
      (if Strip(tags[0]) != "" then [Strip(tags[0])] else []) + CleanTags(tags[1..])
  }

  /** The first occurrence of each text. */
  function Dedup(xs: seq<string>): (r: seq<string>)
    ensures NoDup(r)
    ensures forall x :: x in r <==> x in xs
  {
    if xs == [] then []
    else
      var rest := Dedup(xs[..|xs| - 1]);
      if xs[|xs| - 1] in rest then rest else rest + [xs[|xs| - 1]]
  }

  /** sorted({t.strip() for t in tags if t.strip()}) */
  function NormalizedTags(tags: seq<string>): seq<string>
  {
    ModelSetup.Sort(Dedup(CleanTags(tags)))
  }

  lemma {:induction false} NoDupCount(xs: seq<string>, y: string)
    requires NoDup(xs)
    ensures multiset(xs)[y] <= 1
  {
    if xs != [] {
      assert NoDup(xs[1..]);
      NoDupCount(xs[1..], y);
      assert xs == [xs[0]] + xs[1..];
    }
  }

  lemma NoDupPermutation(xs: seq<string>, ys: seq<string>)
    requires NoDup(xs) && multiset(xs) == multiset(ys)
    ensures NoDup(ys)
  {
    forall i, j | 0 <= i < j < |ys|
      ensures ys[i] != ys[j]
    {
      if ys[i] == ys[j] {
        assert ys == ys[..j] + ys[j..];
        assert ys[i] in ys[..j] && ys[j] in ys[j..];
        assert multiset(ys)[ys[i]] == multiset(ys[..j])[ys[i]] + multiset(ys[j..])[ys[i]];
        NoDupCount(xs, ys[i]);
      }
    }
  }

  /**
   * The stored tags are in sorted order, each once, and are exactly the
   * stripped forms of the non-blank given tags.
   */
  lemma NormalizedTagsSpec(tags: seq<string>)
    ensures ModelSetup.Sorted(NormalizedTags(tags))
    ensures NoDup(NormalizedTags(tags))
    ensures forall t :: t in NormalizedTags(tags) <==> exists k :: 0 <= k < |tags| && Strip(tags[k]) != "" && t == Strip(tags[k])
  {
    var d := Dedup(CleanTags(tags));
    ModelSetup.SortSpec(d);
    NoDupPermutation(d, NormalizedTags(tags));
    forall t
      ensures t in NormalizedTags(tags) <==> t in d
    {
      assert t in NormalizedTags(tags) <==> t in multiset(NormalizedTags(tags));
    }
  }

  /**
   * The asset_tags table. Its primary key is the path alone, so a path has
   * at most one row, holding the type text it was last tagged under and the
   * tags.
   */
  class TagStore {
    var rows: map<string, (string, seq<string>)>

    constructor ()
      ensures rows == map[]
    {
      rows := map[];
    }

    /**
     * set_tags: INSERT OR REPLACE of the path's row with the type text as
     * given and the normalised tags; the path's row under any other type is
     * replaced too.
     */
    method SetTags(relPath: string, assetType: string, tags: seq<string>)
      modifies this
      ensures rows == old(rows)[relPath := (assetType, NormalizedTags(tags))]
    {
      rows := rows[relPath := (assetType, NormalizedTags(tags))];
    }

    /** get_tags: the tags of the path's row when that row has the type, or none. */
    function GetTags(relPath: string, assetType: string): seq<string>
      reads this
    {
      if relPath in rows && rows[relPath].0 == assetType then rows[relPath].1 else []
    }

    /** _tags_for_type: the tags of each path whose row has the type. */
    function TagsForType(t: AssetType): (m: map<string, seq<string>>)
      reads this
      ensures forall p :: p in m <==> p in rows && rows[p].0 == TypeName(t)
      ensures forall p :: p in m ==> m[p] == rows[p].1
      ensures forall p :: p in m ==> m[p] == GetTags(p, TypeName(t))
    {
      map p | p in rows && rows[p].0 == TypeName(t) :: rows[p].1
    }

    /** get_tags_for_type: an unknown type name is a ValueError; otherwise the tags of the paths tagged under it. */
    function GetTagsForType(typeName: string): (r: Result<map<string, seq<string>>>)
      reads this
      ensures r.Err? <==> typeName !in {"bg_clips", "music", "sfx", "fonts"}
      ensures r.Ok? ==> forall p :: p in r.value <==> p in rows && rows[p].0 == typeName
      ensures r.Ok? ==> forall p :: p in r.value ==> r.value[p] == GetTags(p, typeName)
    {
      match NormalizeType(typeName)
      case Err(e) => Err(e)
      case Ok(t) => Ok(TagsForType(t))
    }
  }

  /**
   * After set_tags, get_tags gives the normalised tags under that type and
   * none under any other type, since the path's one row now carries this
   * type; the rows of other paths are unchanged.
   */
  method SetThenGet(store: TagStore, relPath: string, assetType: string, tags: seq<string>)
    modifies store
    ensures store.GetTags(relPath, assetType) == NormalizedTags(tags)
    ensures forall u :: u != assetType ==> store.GetTags(relPath, u) == []
    ensures forall p, u :: p != relPath ==> store.GetTags(p, u) == old(store.GetTags(p, u))
  {
    store.SetTags(relPath, assetType, tags);
  }

  /**
   * Tagging a path under a second type takes it out of the first type's
   * tags map: after set_tags(p, "music", …) and set_tags(p, "sfx", …), p
   * has no music tags.
   */
  method RetagMovesPath(store: TagStore, relPath: string, first: seq<string>, second: seq<string>)
    modifies store
    ensures relPath !in store.TagsForType(Music)
    ensures relPath in store.TagsForType(Sfx) && store.TagsForType(Sfx)[relPath] == NormalizedTags(second)
    ensures store.GetTags(relPath, "music") == []
  {
    store.SetTags(relPath, "music", first);
    store.SetTags(relPath, "sfx", second);
  }

  // ---------------------------------------------------------------------
  // list_assets

  /** A file under the type's directory: its path relative to the assets directory, name and size; `nested` when it sits in a subdirectory. */
  datatype FileEntry = FileEntry(relPath: string, name: string, sizeBytes: nat, nested: bool)

  /** One listed asset. */
  datatype Asset = Asset(path: string, name: string, sizeBytes: nat, assetType: AssetType, tags: seq<string>)

  /** glob("*") for most types and rglob("*") for sound effects, then the extension check, in lower case. */
  predicate Listed(t: AssetType, e: FileEntry)
  {
    (t == Sfx || !e.nested) && Lower(Downloads.Suffix(e.name)) in Exts(t)
  }

  function AssetOf(e: FileEntry, t: AssetType, tagsMap: map<string, seq<string>>): Asset
  {
    Asset(e.relPath, e.name, e.sizeBytes, t, if e.relPath in tagsMap then tagsMap[e.relPath] else [])
  }

  /** The items `keep` accepts, in order. */
  function FilterBy<T>(xs: seq<T>, keep: T -> bool): seq<T>
  {
    if xs == [] then []
    else
      var n := |xs| - 1;
      FilterBy(xs[..n], keep) + (if keep(xs[n]) then [xs[n]] else [])
  }

  /** Every item the filter keeps is an accepted item of the list. */
  lemma {:induction false} FilterBySound<T>(xs: seq<T>, keep: T -> bool, x: T)
    requires x in FilterBy(xs, keep)
    ensures exists k :: 0 <= k < |xs| && xs[k] == x && keep(x)
  {
    var n := |xs| - 1;
    if x in FilterBy(xs[..n], keep) {
      FilterBySound(xs[..n], keep, x);
      var k :| 0 <= k < n && xs[..n][k] == x && keep(x);
      assert xs[k] == x;
    }
  }

  /** Every accepted item of the list is kept. */
  lemma {:induction false} FilterByComplete<T>(xs: seq<T>, keep: T -> bool, k: nat)
    requires k < |xs| && keep(xs[k])
    ensures xs[k] in FilterBy(xs, keep)
  {
    var n := |xs| - 1;
    if k < n {
      assert xs[..n][k] == xs[k];
      FilterByComplete(xs[..n], keep, k);
    }
  }

  /** The listing's test as a function value. */
  function ListedBy(t: AssetType): FileEntry -> bool
  {
    e => Listed(t, e)
  }

  /** The entries the listing keeps, in listing order. */
  function Kept(t: AssetType, entries: seq<FileEntry>): seq<FileEntry>
  {
    FilterBy(entries, ListedBy(t))
  }

  /** The asset of each kept entry, with its path's tags. */
  function AssetsOf(kept: seq<FileEntry>, t: AssetType, tagsMap: map<string, seq<string>>): (r: seq<Asset>)
    ensures |r| == |kept|
    ensures forall k :: 0 <= k < |kept| ==> r[k] == AssetOf(kept[k], t, tagsMap)
  {
    seq(|kept|, k requires 0 <= k < |kept| => AssetOf(kept[k], t, tagsMap))
  }

  lemma AssetsOfSnoc(kept: seq<FileEntry>, e: FileEntry, t: AssetType, tagsMap: map<string, seq<string>>)
    ensures AssetsOf(kept + [e], t, tagsMap) == AssetsOf(kept, t, tagsMap) + [AssetOf(e, t, tagsMap)]
  {
    assert (kept + [e])[|kept|] == e;
  }

  /** The listed files, with their tags, in listing order. */
  function Collect(t: AssetType, entries: seq<FileEntry>, tagsMap: map<string, seq<string>>): seq<Asset>
  {
    AssetsOf(Kept(t, entries), t, tagsMap)
  }

  /** The collected assets are exactly those of the listed entries. */
  lemma CollectSpec(t: AssetType, entries: seq<FileEntry>, tagsMap: map<string, seq<string>>)
    ensures forall a :: a in Collect(t, entries, tagsMap) <==>
      exists k :: 0 <= k < |entries| && Listed(t, entries[k]) && a == AssetOf(entries[k], t, tagsMap)
  {
    var kept := Kept(t, entries);
    var files := Collect(t, entries, tagsMap);
    forall a | a in files
      ensures exists k :: 0 <= k < |entries| && Listed(t, entries[k]) && a == AssetOf(entries[k], t, tagsMap)
    {
      var j :| 0 <= j < |files| && files[j] == a;
      FilterBySound(entries, ListedBy(t), kept[j]);
    }
    forall a | exists k :: 0 <= k < |entries| && Listed(t, entries[k]) && a == AssetOf(entries[k], t, tagsMap)
      ensures a in files
    {
      var k :| 0 <= k < |entries| && Listed(t, entries[k]) && a == AssetOf(entries[k], t, tagsMap);
      FilterByComplete(entries, ListedBy(t), k);
      var j :| 0 <= j < |kept| && kept[j] == entries[k];
      assert files[j] == a;
    }
  }

  /** The query term is in the lower-cased name or in a lower-cased tag. */
  predicate Matches(a: Asset, term: string)
  {
    Contains(Lower(a.name), term) || exists k :: 0 <= k < |a.tags| && Contains(Lower(a.tags[k]), term)
  }

  function FilterQuery(files: seq<Asset>, term: string): (r: seq<Asset>)
    ensures forall a :: a in r <==> a in files && Matches(a, term)
  {
    if files == [] then []
    else (if Matches(files[0], term) then [files[0]] else []) + FilterQuery(files[1..], term)
  }

  predicate NameLe(a: Asset, b: Asset)
  {
    ModelSetup.LexLe(Lower(a.name), Lower(b.name))
  }

  predicate SortedByName(xs: seq<Asset>)
  {
    forall i, j :: 0 <= i < j < |xs| ==> NameLe(xs[i], xs[j])
  }

  function InsertByName(x: Asset, xs: seq<Asset>): seq<Asset>
  {
    if xs == [] || NameLe(x, xs[0]) then [x] + xs else [xs[0]] + InsertByName(x, xs[1..])
  }

  /** sorted(files, key=lambda x: x["name"].lower()) */
  function SortByName(xs: seq<Asset>): seq<Asset>
  {
    if xs == [] then [] else InsertByName(xs[0], SortByName(xs[1..]))
  }

  lemma {:induction false} InsertByNameSpec(x: Asset, xs: seq<Asset>)
    requires SortedByName(xs)
    ensures multiset(InsertByName(x, xs)) == multiset(xs) + multiset{x}
    ensures SortedByName(InsertByName(x, xs))
  {
    if xs == [] || NameLe(x, xs[0]) {
      BelowHead(x, xs);
      ConsSorted(x, xs);
    } else {
      var rest := InsertByName(x, xs[1..]);
      InsertByNameSpec(x, xs[1..]);
      assert xs == [xs[0]] + xs[1..];
      HeadBelowRest(x, xs, rest);
      ConsSorted(xs[0], rest);
    }
  }

  /** Below the head of a sorted list is below all of it. */
  lemma BelowHead(x: Asset, xs: seq<Asset>)
    requires SortedByName(xs) && (xs != [] ==> NameLe(x, xs[0]))
    ensures forall j :: 0 <= j < |xs| ==> NameLe(x, xs[j])
  {
    forall j | 0 < j < |xs|
      ensures NameLe(x, xs[j])
    {
      ModelSetup.LexTrans(Lower(x.name), Lower(xs[0].name), Lower(xs[j].name));
    }
  }

  /** A sorted list stays sorted behind a head that is below all of it. */
  lemma ConsSorted(h: Asset, rest: seq<Asset>)
    requires SortedByName(rest) && forall j :: 0 <= j < |rest| ==> NameLe(h, rest[j])
    ensures SortedByName([h] + rest)
  {
    var r := [h] + rest;
    forall i, j | 0 <= i < j < |r|
      ensures NameLe(r[i], r[j])
    {
      if i > 0 {
        assert r[i] == rest[i - 1] && r[j] == rest[j - 1];
      } else {
        assert r[j] == rest[j - 1];
      }
    }
  }

  /** When x goes after the head, the head stays below everything that follows it. */
  lemma HeadBelowRest(x: Asset, xs: seq<Asset>, rest: seq<Asset>)
    requires SortedByName(xs) && xs != [] && !NameLe(x, xs[0])
    requires multiset(rest) == multiset(xs[1..]) + multiset{x}
    ensures forall j :: 0 <= j < |rest| ==> NameLe(xs[0], rest[j])
  {
    ModelSetup.LexTotal(Lower(x.name), Lower(xs[0].name));
    forall j | 0 <= j < |rest|
      ensures NameLe(xs[0], rest[j])
    {
      assert rest[j] in multiset(rest);
      if rest[j] != x {
        assert rest[j] in multiset(xs[1..]);
        var k :| 0 <= k < |xs[1..]| && xs[1..][k] == rest[j];
        assert xs[k + 1] == rest[j];
      }
    }
  }

  lemma {:induction false} SortByNameSpec(xs: seq<Asset>)
    ensures multiset(SortByName(xs)) == multiset(xs)
    ensures SortedByName(SortByName(xs))
  {
    if xs != [] {
      SortByNameSpec(xs[1..]);
      InsertByNameSpec(xs[0], SortByName(xs[1..]));
      assert xs == [xs[0]] + xs[1..];
    }
  }

  /** The query applies when it is given and not empty; its term is stripped and lower-cased. */
  function Term(query: Option<string>): Option<string>
  {
    if query.Some? && query.value != "" then Some(Lower(Strip(query.value))) else None
  }

  /** list_assets on values: the tags map is _tags_for_type's. */
  function Listing(typeName: string, entries: seq<FileEntry>, tagsMap: map<string, seq<string>>, query: Option<string>): Result<seq<Asset>>
  {
    match NormalizeType(typeName)
    case Err(e) => Err(e)
    case Ok(t) =>
      var files := Collect(t, entries, tagsMap);
      var term := Term(query);
      Ok(SortByName(if term.Some? then FilterQuery(files, term.value) else files))
  }

  /** list_assets */
  method ListAssets(typeName: string, entries: seq<FileEntry>, tagsMap: map<string, seq<string>>, query: Option<string>)
    returns (r: Result<seq<Asset>>)
    ensures r == Listing(typeName, entries, tagsMap, query)
  {
    var normalized := NormalizeType(typeName);
    if normalized.Err? {
      return Err(normalized.error);
    }
    var t := normalized.value;
    var untagged := CollectFiles(t, entries);
    var files := AttachTags(untagged, tagsMap);
    CollectTagged(t, entries, tagsMap, files);
    var term := Term(query);
    if term.Some? {
      files := FilterQuery(files, term.value);
    }
    return Ok(SortByName(files));
  }

  /** The listing loop: each file of the type, with no tags yet. */
  method CollectFiles(t: AssetType, entries: seq<FileEntry>) returns (files: seq<Asset>)
    ensures files == Collect(t, entries, map[])
  {
    files := [];
    for i := 0 to |entries|
      invariant files == Collect(t, entries[..i], map[])
    {
      assert entries[..i + 1][..i] == entries[..i];
      var e := entries[i];
      assert Kept(t, entries[..i + 1]) == Kept(t, entries[..i]) + (if ListedBy(t)(e) then [e] else []);
      if !Listed(t, e) {
        continue;
      }
      AssetsOfSnoc(Kept(t, entries[..i]), e, t, map[]);
      files := files + [Asset(e.relPath, e.name, e.sizeBytes, t, [])];
    }
    assert entries[..|entries|] == entries;
  }

  /** The tagging loop: each file gets its path's tags, or none. */
  method AttachTags(files: seq<Asset>, tagsMap: map<string, seq<string>>) returns (tagged: seq<Asset>)
    ensures |tagged| == |files|
    ensures forall k :: 0 <= k < |files| ==>
      tagged[k] == files[k].(tags := if files[k].path in tagsMap then tagsMap[files[k].path] else [])
  {
    tagged := [];
    for i := 0 to |files|
      invariant |tagged| == i
      invariant forall k :: 0 <= k < i ==>
        tagged[k] == files[k].(tags := if files[k].path in tagsMap then tagsMap[files[k].path] else [])
    {
      var item := files[i];
      tagged := tagged + [item.(tags := if item.path in tagsMap then tagsMap[item.path] else [])];
    }
  }

  /** Collecting without tags and then tagging is collecting with the tags. */
  lemma CollectTagged(t: AssetType, entries: seq<FileEntry>, tagsMap: map<string, seq<string>>, tagged: seq<Asset>)
    requires |tagged| == |Collect(t, entries, map[])|
    requires forall k :: 0 <= k < |tagged| ==> tagged[k] == Collect(t, entries, map[])[k].(tags := if Collect(t, entries, map[])[k].path in tagsMap then tagsMap[Collect(t, entries, map[])[k].path] else [])
    ensures tagged == Collect(t, entries, tagsMap)
  {
    var kept := Kept(t, entries);
    forall k | 0 <= k < |tagged|
      ensures tagged[k] == Collect(t, entries, tagsMap)[k]
    {
      assert Collect(t, entries, map[])[k] == AssetOf(kept[k], t, map[]);
    }
  }

  /**
   * An accepted listing is sorted by lower-cased name and holds exactly the
   * files of the type (by extension, and for sound effects also in
   * subdirectories) that match the query in their name or a tag; an
   * unknown type is a ValueError.
   */
  lemma ListingSpec(typeName: string, entries: seq<FileEntry>, tagsMap: map<string, seq<string>>, query: Option<string>)
    ensures Listing(typeName, entries, tagsMap, query).Err? <==> NormalizeType(typeName).Err?
    ensures Listing(typeName, entries, tagsMap, query).Ok? ==>
      && SortedByName(Listing(typeName, entries, tagsMap, query).value)
      && forall a :: a in Listing(typeName, entries, tagsMap, query).value <==>
           && a.assetType == NormalizeType(typeName).value
           && (exists k :: 0 <= k < |entries| && Listed(a.assetType, entries[k]) && a == AssetOf(entries[k], a.assetType, tagsMap))
           && (Term(query).Some? ==> Matches(a, Term(query).value))
  {
    if NormalizeType(typeName).Ok? {
      var t := NormalizeType(typeName).value;
      var files := Collect(t, entries, tagsMap);
      var kept := if Term(query).Some? then FilterQuery(files, Term(query).value) else files;
      SortByNameSpec(kept);
      CollectSpec(t, entries, tagsMap);
      var r := Listing(typeName, entries, tagsMap, query).value;
      forall a
        ensures a in r <==> a in kept
      {
        assert a in r <==> a in multiset(r);
      }
    }
  }
}
