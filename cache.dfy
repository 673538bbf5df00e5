/** The per-demo cache of utils/cache.py: files in the demo's cache
    directory (selectors, narration audio, screenshots and key-value
    entries), indexed by a metadata table of entries, plus the global cache
    of voice samples.

    The cache directory is a map from file name to contents, the metadata
    table a sequence of (key, entry) pairs in insertion order, as the
    Python dict keeps them. SHA-256 truncated to 16 hex digits is the
    `hash` parameter, and the clock is a `now` parameter in whole
    milliseconds (time-to-live values stay in seconds, as the source keeps
    them). */
module Cache {
  import opened Wrappers
  import opened Json

  /** A metadata entry: `type`, `file`, `cached_at` and `ttl` as the
      management operations read them. */
  datatype Entry = Entry(kind: Option<string>, file: string, cachedAt: Option<int>, ttl: Option<int>)

  /** The contents of a cache file. */
  datatype CachedFile =
    | Binary(bytes: seq<bv8>)
    | SelectorFile(url: string, selectors: seq<(string, string)>, cachedAt: int, htmlHash: Option<string>)
    | KvFile(key: string, value: Json, cachedAt: int, ttl: Option<int>)

  type Entries = seq<(string, Entry)>

  /** A time-to-live in seconds that `if ttl:` accepts. */
  predicate HasTtl(ttl: Option<int>)
  {
    ttl.Some? && ttl.value != 0
  }

  /** `now > cached_at + ttl`, with `now` and `cached_at` in milliseconds. */
  predicate PastTtl(now: int, cachedAt: int, ttl: int)
  {
    now > cachedAt + ttl * 1000
  }

  // ---------------------------------------------------------------------
  // The metadata table

  function KeySet(entries: Entries): set<string>
  {
    if entries == [] then {} else {entries[0].0} + KeySet(entries[1..])
  }

  /** No key occurs twice, as in a dict. */
  predicate UniqueKeys(entries: Entries)
  {
    entries == [] || (entries[0].0 !in KeySet(entries[1..]) && UniqueKeys(entries[1..]))
  }

  /** `entries.get(key)` */
  function Lookup(entries: Entries, key: string): (r: Option<Entry>)
    ensures r.Some? <==> key in KeySet(entries)
  {
    if entries == [] then None
    else if entries[0].0 == key then Some(entries[0].1)
    else Lookup(entries[1..], key)
  }

  /** `entries[key] = e`: an existing key keeps its place, a new one goes
      last. */
  function Upsert(entries: Entries, key: string, e: Entry): (r: Entries)
    ensures KeySet(r) == KeySet(entries) + {key}
    ensures UniqueKeys(entries) ==> UniqueKeys(r)
    ensures Lookup(r, key) == Some(e)
    ensures forall k :: k != key ==> Lookup(r, k) == Lookup(entries, k)
    ensures key !in KeySet(entries) ==> r == entries + [(key, e)]
    ensures key in KeySet(entries) ==>
      |r| == |entries| && forall i :: 0 <= i < |r| ==> r[i].0 == entries[i].0 && (r[i].0 != key ==> r[i] == entries[i])
  {
    if entries == [] then [(key, e)]
    else if entries[0].0 == key then
      var r := [(key, e)] + entries[1..];
      assert r[1..] == entries[1..];
      r
    else
      var r := [entries[0]] + Upsert(entries[1..], key, e);
      assert r[1..] == Upsert(entries[1..], key, e);
      r
  }

  // ---------------------------------------------------------------------
  // Removing the entries a predicate selects (`clear`, `prune_expired`)

  /** The entries the predicate does not select, in order. */
  function Kept(entries: Entries, sel: Entry -> bool): (r: Entries)
    ensures |r| <= |entries|
  {
    if entries == [] then []
    else (if sel(entries[0].1) then [] else [entries[0]]) + Kept(entries[1..], sel)
  }

  /** The keys of the selected entries, in order. */
  function SelectedKeys(entries: Entries, sel: Entry -> bool): seq<string>
  {
    if entries == [] then []
    else (if sel(entries[0].1) then [entries[0].0] else []) + SelectedKeys(entries[1..], sel)
  }

  /** The files of the selected entries. */
  function SelectedFiles(entries: Entries, sel: Entry -> bool): set<string>
  {
    if entries == [] then {}
    else (if sel(entries[0].1) then {entries[0].1.file} else {}) + SelectedFiles(entries[1..], sel)
  }

  /** The entries whose key is not in `keys` (`del entries[key]` for each). */
  function WithoutKeys(entries: Entries, keys: set<string>): Entries
  {
    if entries == [] then []
    else (if entries[0].0 in keys then [] else [entries[0]]) + WithoutKeys(entries[1..], keys)
  }

  /** The number of files deleted when the selected entries are visited in
      order: a file shared by two entries is deleted, and counted, once. */
  function DeletedCount(entries: Entries, sel: Entry -> bool, files: set<string>): nat
  {
    if entries == [] then 0
    else if sel(entries[0].1) && entries[0].1.file in files then
      1 + DeletedCount(entries[1..], sel, files - {entries[0].1.file})
    else DeletedCount(entries[1..], sel, files)
  }

  /** The deleted files are exactly the existing files of selected entries. */
  lemma {:induction false} DeletedCountIsExisting(entries: Entries, sel: Entry -> bool, files: set<string>)
    ensures DeletedCount(entries, sel, files) == |files * SelectedFiles(entries, sel)|
  {
    if entries != [] {
      var f := entries[0].1.file;
      var rest := SelectedFiles(entries[1..], sel);
      if sel(entries[0].1) && f in files {
        DeletedCountIsExisting(entries[1..], sel, files - {f});
        ExistingHit(files, f, rest);
      } else if sel(entries[0].1) {
        DeletedCountIsExisting(entries[1..], sel, files);
        assert files * ({f} + rest) == files * rest;
      } else {
        DeletedCountIsExisting(entries[1..], sel, files);
        assert SelectedFiles(entries, sel) == rest;
      }
    }
  }

  /** An existing file of a selected entry is deleted once, then no longer
      exists. */
  lemma ExistingHit(files: set<string>, f: string, rest: set<string>)
    requires f in files
    ensures |files * ({f} + rest)| == 1 + |(files - {f}) * rest|
  {
    assert files * ({f} + rest) == {f} + (files - {f}) * rest;
    assert f !in (files - {f}) * rest;
  }

  lemma {:induction false} SelectedKeysIn(entries: Entries, sel: Entry -> bool, k: string)
    requires k in SelectedKeys(entries, sel)
    ensures k in KeySet(entries)
  {
    if k != entries[0].0 {
      SelectedKeysIn(entries[1..], sel, k);
    }
  }

  /** A key the entries lack does not change what `WithoutKeys` keeps. */
  lemma {:induction false} WithoutAbsentKey(entries: Entries, keys: set<string>, k: string)
    requires k !in KeySet(entries)
    ensures WithoutKeys(entries, keys + {k}) == WithoutKeys(entries, keys)
  {
    if entries != [] {
      WithoutAbsentKey(entries[1..], keys, k);
    }
  }

  /** With unique keys, deleting the selected keys leaves exactly the
      entries that are not selected. */
  lemma {:induction false} WithoutSelectedKeys(entries: Entries, sel: Entry -> bool, keys: set<string>)
    requires UniqueKeys(entries)
    requires forall k :: k in keys <==> k in SelectedKeys(entries, sel)
    ensures WithoutKeys(entries, keys) == Kept(entries, sel)
  {
    if entries != [] {
      var k0 := entries[0].0;
      var tail := entries[1..];
      var tailKeys := set k | k in SelectedKeys(tail, sel);
      forall k | k in SelectedKeys(tail, sel)
        ensures k in KeySet(tail)
      {
        SelectedKeysIn(tail, sel, k);
      }
      WithoutSelectedKeys(tail, sel, tailKeys);
      if sel(entries[0].1) {
        assert keys == tailKeys + {k0};
        WithoutAbsentKey(tail, tailKeys, k0);
      } else {
        assert keys == tailKeys;
      }
    }
  }

  /** Deleting one more key. */
  lemma {:induction false} WithoutOneMore(entries: Entries, keys: set<string>, k: string)
    ensures WithoutKeys(WithoutKeys(entries, keys), {k}) == WithoutKeys(entries, keys + {k})
  {
    if entries != [] {
      WithoutOneMore(entries[1..], keys, k);
      var w := WithoutKeys(entries[1..], keys);
      if entries[0].0 !in keys {
        assert WithoutKeys(entries, keys) == [entries[0]] + w;
        assert ([entries[0]] + w)[1..] == w;
      } else {
        assert WithoutKeys(entries, keys) == w;
      }
    }
  }

  /** Deleting the next listed key. */
  lemma RemoveStep(entries: Entries, ks: seq<string>, j: nat)
    requires j < |ks|
    ensures WithoutKeys(WithoutKeys(entries, ToSet(ks[..j])), {ks[j]}) == WithoutKeys(entries, ToSet(ks[..j + 1]))
  {
    assert ks[..j + 1][..j] == ks[..j];
    WithoutOneMore(entries, ToSet(ks[..j]), ks[j]);
  }

  /** Deleting no key changes nothing. */
  lemma {:induction false} WithoutNoKeys(entries: Entries)
    ensures WithoutKeys(entries, {}) == entries
  {
    if entries != [] {
      WithoutNoKeys(entries[1..]);
    }
  }

  /** The selected entries, counted. */
  function SelectedCount(entries: Entries, sel: Entry -> bool): (n: nat)
    ensures n == |SelectedKeys(entries, sel)|
    ensures n + |Kept(entries, sel)| == |entries|
  {
    if entries == [] then 0
    else (if sel(entries[0].1) then 1 else 0) + SelectedCount(entries[1..], sel)
  }

  /** The keys of a list, as a set. */
  function ToSet(ks: seq<string>): set<string>
  {
    if ks == [] then {} else ToSet(ks[..|ks| - 1]) + {ks[|ks| - 1]}
  }

  lemma {:induction false} ToSetMembers(ks: seq<string>)
    ensures forall k :: k in ToSet(ks) <==> k in ks
  {
    if ks != [] {
      ToSetMembers(ks[..|ks| - 1]);
      assert ks == ks[..|ks| - 1] + [ks[|ks| - 1]];
    }
  }

  /** One step of a forward pass over the entries, for the selection
      functions. */
  lemma SelectStep(es: Entries, i: nat, sel: Entry -> bool)
    requires i < |es|
    ensures SelectedKeys(es[i..], sel) == (if sel(es[i].1) then [es[i].0] else []) + SelectedKeys(es[i + 1..], sel)
    ensures SelectedFiles(es[i..], sel) == (if sel(es[i].1) then {es[i].1.file} else {}) + SelectedFiles(es[i + 1..], sel)
    ensures SelectedCount(es[i..], sel) == (if sel(es[i].1) then 1 else 0) + SelectedCount(es[i + 1..], sel)
  {
    assert es[i..][0] == es[i];
    assert es[i..][1..] == es[i + 1..];
  }

  /** One step of a forward pass, for `DeletedCount`. */
  lemma DeletedStep(es: Entries, i: nat, sel: Entry -> bool, fs: set<string>)
    requires i < |es|
    ensures DeletedCount(es[i..], sel, fs) ==
      if sel(es[i].1) && es[i].1.file in fs then 1 + DeletedCount(es[i + 1..], sel, fs - {es[i].1.file})
      else DeletedCount(es[i + 1..], sel, fs)
  {
    assert es[i..][0] == es[i];
    assert es[i..][1..] == es[i + 1..];
  }

  lemma KeysAssoc(a: seq<string>, b: seq<string>, c: seq<string>)
    ensures (a + b) + c == a + (b + c)
  {
  }

  /** Where a pass over `e0` stands after `i` entries: the keys listed,
      the files removed so far, and the files left. */
  ghost predicate PassedSelection(e0: Entries, sel: Entry -> bool, f0: map<string, CachedFile>, i: nat,
                                  keys: seq<string>, removed: set<string>, files: map<string, CachedFile>)
  {
    && i <= |e0|
    && keys + SelectedKeys(e0[i..], sel) == SelectedKeys(e0, sel)
    && removed + SelectedFiles(e0[i..], sel) == SelectedFiles(e0, sel)
    && files == f0 - removed
  }

  /** One entry more: a selected entry's key is listed and its file,
      when it exists, removed. */
  lemma PassStep(e0: Entries, sel: Entry -> bool, f0: map<string, CachedFile>, i: nat,
                 keys: seq<string>, removed: set<string>, files: map<string, CachedFile>)
    requires PassedSelection(e0, sel, f0, i, keys, removed, files) && i < |e0|
    ensures var (key, entry) := e0[i];
      PassedSelection(e0, sel, f0, i + 1,
                      if sel(entry) then keys + [key] else keys,
                      if sel(entry) then removed + {entry.file} else removed,
                      if sel(entry) && entry.file in files then files - {entry.file} else files)
  {
    SelectStep(e0, i, sel);
    var (key, entry) := e0[i];
    var head := if sel(entry) then [key] else [];
    KeysAssoc(keys, head, SelectedKeys(e0[i + 1..], sel));
    assert (if sel(entry) then keys + [key] else keys) == keys + head;
    FilesStep(f0, removed, files, entry.file, sel(entry));
  }

  /** Removing the file of one more entry, if it exists. */
  lemma FilesStep(f0: map<string, CachedFile>, removed: set<string>, files: map<string, CachedFile>,
                  f: string, selected: bool)
    requires files == f0 - removed
    ensures (if selected && f in files then files - {f} else files) == f0 - (if selected then removed + {f} else removed)
  {
    if selected {
      assert f0 - (removed + {f}) == files - {f};
      if f !in files {
        assert files - {f} == files;
      }
    }
  }

  /** Where the first loop of `clear` stands after `i` entries: also the
      number of files deleted so far. */
  ghost predicate ClearedUpTo(e0: Entries, sel: Entry -> bool, f0: map<string, CachedFile>, i: nat,
                              keys: seq<string>, removed: set<string>, files: map<string, CachedFile>, count: nat)
  {
    && PassedSelection(e0, sel, f0, i, keys, removed, files)
    && count + DeletedCount(e0[i..], sel, files.Keys) == DeletedCount(e0, sel, f0.Keys)
  }

  /** One entry more in `clear`: an existing file of a selected entry is
      deleted and counted. */
  lemma ClearStep(e0: Entries, sel: Entry -> bool, f0: map<string, CachedFile>, i: nat,
                  keys: seq<string>, removed: set<string>, files: map<string, CachedFile>, count: nat)
    requires ClearedUpTo(e0, sel, f0, i, keys, removed, files, count) && i < |e0|
    ensures var (key, entry) := e0[i];
      var hit := sel(entry) && entry.file in files;
      ClearedUpTo(e0, sel, f0, i + 1,
                  if sel(entry) then keys + [key] else keys,
                  if sel(entry) then removed + {entry.file} else removed,
                  if hit then files - {entry.file} else files,
                  if hit then count + 1 else count)
  {
    PassStep(e0, sel, f0, i, keys, removed, files);
    DeletedStep(e0, i, sel, files.Keys);
    var entry := e0[i].1;
    if sel(entry) && entry.file in files {
      assert (files - {entry.file}).Keys == files.Keys - {entry.file};
    }
  }

  /** After the whole pass: every selected key is listed and every file
      of a selected entry is gone. */
  lemma PassDone(e0: Entries, sel: Entry -> bool, f0: map<string, CachedFile>,
                 keys: seq<string>, removed: set<string>, files: map<string, CachedFile>)
    requires PassedSelection(e0, sel, f0, |e0|, keys, removed, files)
    ensures keys == SelectedKeys(e0, sel) && files == f0 - SelectedFiles(e0, sel)
  {
    assert e0[|e0|..] == [];
    assert keys + [] == keys;
  }

  /** After the first loop of `clear`: the count is that of the existing
      files of the selected entries. */
  lemma ClearDone(e0: Entries, sel: Entry -> bool, f0: map<string, CachedFile>,
                  keys: seq<string>, removed: set<string>, files: map<string, CachedFile>, count: nat)
    requires ClearedUpTo(e0, sel, f0, |e0|, keys, removed, files, count)
    ensures keys == SelectedKeys(e0, sel) && files == f0 - SelectedFiles(e0, sel)
    ensures count == |f0.Keys * SelectedFiles(e0, sel)|
  {
    PassDone(e0, sel, f0, keys, removed, files);
    assert e0[|e0|..] == [];
    DeletedCountIsExisting(e0, sel, f0.Keys);
  }

  /** After the first loop of `prune_expired`: every selected entry is
      counted. */
  lemma PruneDone(e0: Entries, sel: Entry -> bool, f0: map<string, CachedFile>,
                  keys: seq<string>, removed: set<string>, files: map<string, CachedFile>, count: nat)
    requires PrunedUpTo(e0, sel, f0, |e0|, keys, removed, files, count)
    ensures keys == SelectedKeys(e0, sel) && files == f0 - SelectedFiles(e0, sel)
    ensures count == SelectedCount(e0, sel)
  {
    PassDone(e0, sel, f0, keys, removed, files);
    assert e0[|e0|..] == [];
  }

  /** Where the first loop of `prune_expired` stands after `i` entries:
      also the number of entries selected so far. */
  ghost predicate PrunedUpTo(e0: Entries, sel: Entry -> bool, f0: map<string, CachedFile>, i: nat,
                             keys: seq<string>, removed: set<string>, files: map<string, CachedFile>, count: nat)
  {
    && PassedSelection(e0, sel, f0, i, keys, removed, files)
    && count + SelectedCount(e0[i..], sel) == SelectedCount(e0, sel)
  }

  /** One entry more in `prune_expired`: every selected entry is counted. */
  lemma PruneStep(e0: Entries, sel: Entry -> bool, f0: map<string, CachedFile>, i: nat,
                  keys: seq<string>, removed: set<string>, files: map<string, CachedFile>, count: nat)
    requires PrunedUpTo(e0, sel, f0, i, keys, removed, files, count) && i < |e0|
    ensures var (key, entry) := e0[i];
      PrunedUpTo(e0, sel, f0, i + 1,
                 if sel(entry) then keys + [key] else keys,
                 if sel(entry) then removed + {entry.file} else removed,
                 if sel(entry) && entry.file in files then files - {entry.file} else files,
                 if sel(entry) then count + 1 else count)
  {
    PassStep(e0, sel, f0, i, keys, removed, files);
    SelectStep(e0, i, sel);
  }

  /** `clear(cache_type)` selects the entries of that type, or all. */
  function ClearSelects(cacheType: Option<string>): Entry -> bool
  {
    (e: Entry) => cacheType.None? || e.kind == cacheType
  }

  /** `prune_expired` selects the entries with a TTL and a time that are
      past it. */
  predicate EntryExpired(e: Entry, now: int)
  {
    e.ttl.Some? && e.cachedAt.Some? && PastTtl(now, e.cachedAt.value, e.ttl.value)
  }

  // ---------------------------------------------------------------------
  // Statistics

  datatype TypeStats = TypeStats(count: nat, sizeBytes: nat)
  datatype Stats = Stats(totalEntries: nat, byType: seq<(string, TypeStats)>, totalSizeBytes: nat)

  /** `entry.get("type", "unknown")` */
  function KindName(e: Entry): string
  {
    e.kind.GetOr("unknown")
  }

  /** The size a file contributes: its size when it exists, else nothing. */
  function FileSize(files: map<string, CachedFile>, size: string -> nat, name: string): nat
  {
    if name in files then size(name) else 0
  }

  /** How many entries have type `t`. */
  function CountKind(entries: Entries, t: string): nat
  {
    if entries == [] then 0
    else CountKind(entries[..|entries| - 1], t) + (if KindName(entries[|entries| - 1].1) == t then 1 else 0)
  }

  /** The size of the existing files of the entries of type `t`. */
  function SizeKind(entries: Entries, t: string, files: map<string, CachedFile>, size: string -> nat): nat
  {
    if entries == [] then 0
    else
      var last := entries[|entries| - 1].1;
      SizeKind(entries[..|entries| - 1], t, files, size) + (if KindName(last) == t then FileSize(files, size, last.file) else 0)
  }

  /** The size of the existing files of all entries (a file shared by two
      entries counts twice, as the source adds it twice). */
  function TotalSize(entries: Entries, files: map<string, CachedFile>, size: string -> nat): nat
  {
    if entries == [] then 0
    else TotalSize(entries[..|entries| - 1], files, size) + FileSize(files, size, entries[|entries| - 1].1.file)
  }

  /** The types of a statistics table, in order. */
  function TypeNames(byType: seq<(string, TypeStats)>): (r: seq<string>)
    ensures |r| == |byType|
  {
    if byType == [] then [] else [byType[0].0] + TypeNames(byType[1..])
  }

  /** The types of the entries, each once, in order of first appearance. */
  function KindsInOrder(entries: Entries): seq<string>
  {
    if entries == [] then []
    else
      var seen := KindsInOrder(entries[..|entries| - 1]);
      var t := KindName(entries[|entries| - 1].1);
      if t in seen then seen else seen + [t]
  }

  /** One more entry adds its type when it is new. */
  lemma KindsInOrderStep(entries: Entries, i: nat)
    requires i < |entries|
    ensures KindsInOrder(entries[..i + 1]) ==
      (var seen := KindsInOrder(entries[..i]);
       if KindName(entries[i].1) in seen then seen else seen + [KindName(entries[i].1)])
  {
    assert entries[..i + 1][..i] == entries[..i];
  }

  function StatsOf(byType: seq<(string, TypeStats)>, t: string): Option<TypeStats>
  {
    if byType == [] then None
    else if byType[0].0 == t then Some(byType[0].1)
    else StatsOf(byType[1..], t)
  }

  function SumCounts(byType: seq<(string, TypeStats)>): nat
  {
    if byType == [] then 0 else byType[0].1.count + SumCounts(byType[1..])
  }

  function SumSizes(byType: seq<(string, TypeStats)>): nat
  {
    if byType == [] then 0 else byType[0].1.sizeBytes + SumSizes(byType[1..])
  }

  /** Counts one more entry of type `t` whose file has size `n`. */
  function AddToType(byType: seq<(string, TypeStats)>, t: string, n: nat): (r: seq<(string, TypeStats)>)
    ensures StatsOf(r, t) == Some(if StatsOf(byType, t).Some?
                                  then TypeStats(StatsOf(byType, t).value.count + 1, StatsOf(byType, t).value.sizeBytes + n)
                                  else TypeStats(1, n))
    ensures forall u :: u != t ==> StatsOf(r, u) == StatsOf(byType, u)
    ensures SumCounts(r) == SumCounts(byType) + 1
    ensures SumSizes(r) == SumSizes(byType) + n
    ensures TypeNames(r) == if t in TypeNames(byType) then TypeNames(byType) else TypeNames(byType) + [t]
  {
    if byType == [] then [(t, TypeStats(1, n))]
    else if byType[0].0 == t then
      var r := [(t, TypeStats(byType[0].1.count + 1, byType[0].1.sizeBytes + n))] + byType[1..];
      assert r[1..] == byType[1..];
      r
    else
      var r := [byType[0]] + AddToType(byType[1..], t, n);
      assert r[1..] == AddToType(byType[1..], t, n);
      r
  }

  /** What `get_stats` reports for type `t`: nothing for a type no entry
      has, else the entry count and the size of their existing files. */
  function ExpectedStats(entries: Entries, t: string, files: map<string, CachedFile>, size: string -> nat): Option<TypeStats>
  {
    if CountKind(entries, t) == 0 then None
    else Some(TypeStats(CountKind(entries, t), SizeKind(entries, t, files, size)))
  }

  // ---------------------------------------------------------------------
  // The demo cache

  class DemoCache {
    const demoId: string
    /** `sha256(...).hexdigest()[:16]` */
    const hash: string -> string
    /** The files of the cache directory, by name. */
    var files: map<string, CachedFile>
    /** `metadata["entries"]` */
    var entries: Entries

    ghost predicate Valid()
      reads this
    {
      UniqueKeys(entries)
    }

    constructor(demoId: string, hash: string -> string, files: map<string, CachedFile>, entries: Entries)
      requires UniqueKeys(entries)
      ensures Valid()
      ensures this.demoId == demoId && this.hash == hash
      ensures this.files == files && this.entries == entries
    {
      this.demoId := demoId;
      this.hash := hash;
      this.files := files;
      this.entries := entries;
    }

    // -- selectors

    function SelectorFileName(pageUrl: string): string
    {
      "selectors_" + hash("selectors:" + pageUrl) + ".json"
    }

    /** `get_selectors`: nothing when no file is cached, or when an HTML
        hash is given and differs from the stored one. */
    function GetSelectors(pageUrl: string, pageHtmlHash: Option<string>): (r: Option<seq<(string, string)>>)
      reads this
      ensures var name := SelectorFileName(pageUrl);
        r.Some? <==> (name in files && files[name].SelectorFile?
                      && (Truthy(pageHtmlHash) ==> files[name].htmlHash == pageHtmlHash))
      ensures r.Some? ==> r.value == files[SelectorFileName(pageUrl)].selectors
    {
      var name := SelectorFileName(pageUrl);
      if name !in files then None
      else match files[name]
        case SelectorFile(_, selectors, _, stored) =>
          if Truthy(pageHtmlHash) && stored != pageHtmlHash then None else Some(selectors)
        case _ => None
    }

    /** `cache_selectors` */
    method CacheSelectors(pageUrl: string, selectors: seq<(string, string)>, pageHtmlHash: Option<string>, now: int)
      requires Valid()
      modifies this
      ensures Valid()
      ensures files == old(files)[SelectorFileName(pageUrl) := SelectorFile(pageUrl, selectors, now, pageHtmlHash)]
      ensures entries == Upsert(old(entries), "selectors:" + pageUrl,
                                Entry(Some("selectors"), SelectorFileName(pageUrl), Some(now), None))
      ensures GetSelectors(pageUrl, pageHtmlHash) == Some(selectors)
      ensures GetSelectors(pageUrl, None) == Some(selectors)
      ensures forall h :: Truthy(Some(h)) && Some(h) != pageHtmlHash ==> GetSelectors(pageUrl, Some(h)).None?
    {
      var name := SelectorFileName(pageUrl);
      files := files[name := SelectorFile(pageUrl, selectors, now, pageHtmlHash)];
      entries := Upsert(entries, "selectors:" + pageUrl, Entry(Some("selectors"), name, Some(now), None));
    }

    // -- audio

    /** Audio files are named after the text alone. */
    function AudioFileName(text: string): string
    {
      "audio_" + hash(text) + ".mp3"
    }

    function AudioKey(text: string, voiceId: Option<string>): string
    {
      "audio:" + (if Truthy(voiceId) then voiceId.value else "default") + ":" + text
    }

    /** `get_audio`: the cached file for the text, if there is one. */
    function GetAudio(text: string, voiceId: Option<string>): (r: Option<string>)
      reads this
      ensures r.Some? <==> AudioFileName(text) in files
      ensures r.Some? ==> r.value == AudioFileName(text)
    {
      var name := AudioFileName(text);
      if name in files then Some(name) else None
    }

    /** `cache_audio`: once cached under one voice, the text is found
        under every voice. */
    method CacheAudio(text: string, audioData: seq<bv8>, voiceId: Option<string>, now: int) returns (path: string)
      requires Valid()
      modifies this
      ensures Valid()
      ensures path == AudioFileName(text)
      ensures files == old(files)[path := Binary(audioData)]
      ensures entries == Upsert(old(entries), AudioKey(text, voiceId), Entry(Some("audio"), path, Some(now), None))
      ensures forall v :: GetAudio(text, v) == Some(path)
    {
      path := AudioFileName(text);
      files := files[path := Binary(audioData)];
      entries := Upsert(entries, AudioKey(text, voiceId), Entry(Some("audio"), path, Some(now), None));
    }

    // -- screenshots

    function ScreenshotFileName(pageUrl: string, actionId: string): string
    {
      "screenshot_" + hash("screenshot:" + pageUrl + ":" + actionId) + ".png"
    }

    /** `get_screenshot` */
    function GetScreenshot(pageUrl: string, actionId: string): (r: Option<string>)
      reads this
      ensures r.Some? <==> ScreenshotFileName(pageUrl, actionId) in files
      ensures r.Some? ==> r.value == ScreenshotFileName(pageUrl, actionId)
    {
      var name := ScreenshotFileName(pageUrl, actionId);
      if name in files then Some(name) else None
    }

    /** `cache_screenshot` */
    method CacheScreenshot(pageUrl: string, actionId: string, screenshotData: seq<bv8>, now: int) returns (path: string)
      requires Valid()
      modifies this
      ensures Valid()
      ensures path == ScreenshotFileName(pageUrl, actionId)
      ensures files == old(files)[path := Binary(screenshotData)]
      ensures entries == Upsert(old(entries), "screenshot:" + pageUrl + ":" + actionId,
                                Entry(Some("screenshot"), path, Some(now), None))
      ensures GetScreenshot(pageUrl, actionId) == Some(path)
    {
      path := ScreenshotFileName(pageUrl, actionId);
      files := files[path := Binary(screenshotData)];
      entries := Upsert(entries, "screenshot:" + pageUrl + ":" + actionId,
                        Entry(Some("screenshot"), path, Some(now), None));
    }

    // -- key-value entries

    function KvFileName(key: string): string
    {
      "kv_" + hash(key) + ".json"
    }

    /** The value a key-value file gives at time `now`: nothing once its
        TTL, when it has one, has passed. */
    function KvValue(key: string, now: int): (r: Option<Json>)
      reads this
      ensures r.Some? ==> KvFileName(key) in files && files[KvFileName(key)].KvFile?
      ensures r.Some? ==> r.value == files[KvFileName(key)].value
    {
      var name := KvFileName(key);
      if name !in files then None
      else match files[name]
        case KvFile(_, value, cachedAt, ttl) =>
          if ttl.Some? && PastTtl(now, cachedAt, ttl.value) then None else Some(value)
        case _ => None
    }

    /** `get`: an expired file is deleted; the metadata table is not
        touched. */
    method Get(key: string, now: int) returns (r: Option<Json>)
      modifies this
      ensures r == old(KvValue(key, now))
      ensures entries == old(entries)
      ensures var name := KvFileName(key);
        files == if name in old(files) && old(files)[name].KvFile? && r.None?
                 then old(files) - {name} else old(files)
    {
      var name := KvFileName(key);
      if name !in files {
        return None;
      }
      match files[name]
      case KvFile(_, value, cachedAt, ttl) =>
        if ttl.Some? && PastTtl(now, cachedAt, ttl.value) {
          files := files - {name};
          r := None;
        } else {
          r := Some(value);
        }
      case _ =>
        r := None;
    }

    /** `set`: the file keeps a TTL only when it is truthy; the metadata
        entry keeps the TTL as given. */
    method Set(key: string, value: Json, ttl: Option<int>, now: int)
      requires Valid()
      modifies this
      ensures Valid()
      ensures files == old(files)[KvFileName(key) := KvFile(key, value, now, if HasTtl(ttl) then ttl else None)]
      ensures entries == Upsert(old(entries), key, Entry(Some("kv"), KvFileName(key), Some(now), ttl))
      ensures forall later :: (!HasTtl(ttl) || !PastTtl(later, now, ttl.value)) ==> KvValue(key, later) == Some(value)
      ensures forall later :: HasTtl(ttl) && PastTtl(later, now, ttl.value) ==> KvValue(key, later).None?
    {
      var stored := if HasTtl(ttl) then ttl else None;
      files := files[KvFileName(key) := KvFile(key, value, now, stored)];
      entries := Upsert(entries, key, Entry(Some("kv"), KvFileName(key), Some(now), ttl));
    }

    // -- management

    /** `clear`: removes the entries of the type (all when None) and their
        files, and counts the files that existed. */
    method Clear(cacheType: Option<string>) returns (count: nat)
      requires Valid()
      modifies this
      ensures Valid()
      ensures entries == Kept(old(entries), ClearSelects(cacheType))
      ensures files == old(files) - SelectedFiles(old(entries), ClearSelects(cacheType))
      ensures count == |old(files).Keys * SelectedFiles(old(entries), ClearSelects(cacheType))|
    {
      var keysToRemove;
      keysToRemove, count := DeleteSelectedFiles(ClearSelects(cacheType));
      RemoveKeys(keysToRemove, ClearSelects(cacheType));
    }

    /** The first loop of `clear`: delete the existing file of every
        selected entry, counting the deletions, and list the selected keys. */
    method DeleteSelectedFiles(sel: Entry -> bool) returns (keysToRemove: seq<string>, count: nat)
      modifies this
      ensures entries == old(entries)
      ensures keysToRemove == SelectedKeys(entries, sel)
      ensures files == old(files) - SelectedFiles(entries, sel)
      ensures count == |old(files).Keys * SelectedFiles(entries, sel)|
    {
      count := 0;
      keysToRemove := [];
      ghost var removed: set<string> := {};
      ghost var e0 := entries;
      ghost var f0 := files;
      var i := 0;
      while i < |entries|
        invariant entries == e0
        invariant ClearedUpTo(e0, sel, f0, i, keysToRemove, removed, files, count)
      {
        ClearStep(e0, sel, f0, i, keysToRemove, removed, files, count);
        var (key, entry) := entries[i];
        if sel(entry) {
          if entry.file in files {
            files := files - {entry.file};
            count := count + 1;
          }
          removed := removed + {entry.file};
          keysToRemove := keysToRemove + [key];
        }
        i := i + 1;
      }
      ClearDone(e0, sel, f0, keysToRemove, removed, files, count);
    }

    /** The second loop of `clear` and `prune_expired`: `del` each listed
        key. */
    method RemoveKeys(keysToRemove: seq<string>, ghost sel: Entry -> bool)
      requires Valid() && keysToRemove == SelectedKeys(entries, sel)
      modifies this
      ensures Valid()
      ensures entries == Kept(old(entries), sel)
      ensures files == old(files)
    {
      ghost var e0 := entries;
      WithoutNoKeys(e0);
      var j := 0;
      while j < |keysToRemove|
        invariant 0 <= j <= |keysToRemove|
        invariant entries == WithoutKeys(e0, ToSet(keysToRemove[..j]))
        invariant files == old(files)
      {
        RemoveStep(e0, keysToRemove, j);
        entries := WithoutKeys(entries, {keysToRemove[j]});
        j := j + 1;
      }
      assert keysToRemove[..j] == keysToRemove;
      RemovedSelected(e0, sel, keysToRemove);
    }

    /** `prune_expired`: removes the expired entries and their files, and
        counts the entries. */
    method PruneExpired(now: int) returns (count: nat)
      requires Valid()
      modifies this
      ensures Valid()
      ensures entries == Kept(old(entries), e => EntryExpired(e, now))
      ensures files == old(files) - SelectedFiles(old(entries), e => EntryExpired(e, now))
      ensures count == SelectedCount(old(entries), e => EntryExpired(e, now))
    {
      var sel := (e: Entry) => EntryExpired(e, now);
      count := 0;
      var keysToRemove: seq<string> := [];
      ghost var removed: set<string> := {};
      ghost var e0 := entries;
      ghost var f0 := files;
      var i := 0;
      while i < |entries|
        invariant entries == e0
        invariant PrunedUpTo(e0, sel, f0, i, keysToRemove, removed, files, count)
      {
        PruneStep(e0, sel, f0, i, keysToRemove, removed, files, count);
        var (key, entry) := entries[i];
        assert sel(entry) == (entry.ttl.Some? && entry.cachedAt.Some? && PastTtl(now, entry.cachedAt.value, entry.ttl.value));
        if entry.ttl.Some? && entry.cachedAt.Some? {
          if PastTtl(now, entry.cachedAt.value, entry.ttl.value) {
            if entry.file in files {
              files := files - {entry.file};
            }
            keysToRemove := keysToRemove + [key];
            removed := removed + {entry.file};
            count := count + 1;
          }
        }
        i := i + 1;
      }
      PruneDone(e0, sel, f0, keysToRemove, removed, files, count);
      RemoveKeys(keysToRemove, sel);
    }

    /** `get_stats`: the entry count, the count and file size per type in
        order of first appearance, and the total size. */
    method GetStats(size: string -> nat) returns (stats: Stats)
      ensures stats.totalEntries == |entries|
      ensures SumCounts(stats.byType) == |entries|
      ensures stats.totalSizeBytes == SumSizes(stats.byType) == TotalSize(entries, files, size)
      ensures forall t :: StatsOf(stats.byType, t) == ExpectedStats(entries, t, files, size)
      ensures TypeNames(stats.byType) == KindsInOrder(entries)
    {
      var byType: seq<(string, TypeStats)> := [];
      var total: nat := 0;
      var i := 0;
      while i < |entries|
        invariant 0 <= i <= |entries|
        invariant SumCounts(byType) == i
        invariant total == SumSizes(byType) == TotalSize(entries[..i], files, size)
        invariant forall t :: StatsOf(byType, t) == ExpectedStats(entries[..i], t, files, size)
        invariant TypeNames(byType) == KindsInOrder(entries[..i])
      {
        var entry := entries[i].1;
        var t := KindName(entry);
        var n := if entry.file in files then size(entry.file) else 0;
        assert entries[..i + 1][..i] == entries[..i];
        assert entries[..i + 1][i] == entries[i];
        KindsInOrderStep(entries, i);
        StatsStep(byType, entries, i, files, size);
        byType := AddToType(byType, t, n);
        total := total + n;
        i := i + 1;
      }
      assert entries[..i] == entries;
      stats := Stats(|entries|, byType, total);
    }
  }

  /** Removing every selected key keeps exactly the unselected entries,
      and their keys stay unique. */
  lemma RemovedSelected(entries: Entries, sel: Entry -> bool, keys: seq<string>)
    requires UniqueKeys(entries) && keys == SelectedKeys(entries, sel)
    ensures WithoutKeys(entries, ToSet(keys)) == Kept(entries, sel)
    ensures UniqueKeys(Kept(entries, sel))
  {
    ToSetMembers(keys);
    WithoutSelectedKeys(entries, sel, ToSet(keys));
    KeptUnique(entries, sel);
  }

  lemma {:induction false} KeptUnique(entries: Entries, sel: Entry -> bool)
    requires UniqueKeys(entries)
    ensures UniqueKeys(Kept(entries, sel))
    ensures KeySet(Kept(entries, sel)) <= KeySet(entries)
  {
    if entries != [] {
      var tail := entries[1..];
      KeptUnique(tail, sel);
      if !sel(entries[0].1) {
        var r := [entries[0]] + Kept(tail, sel);
        assert Kept(entries, sel) == r;
        assert r[1..] == Kept(tail, sel);
        assert r[0].0 !in KeySet(r[1..]);
        assert KeySet(r) == {entries[0].0} + KeySet(Kept(tail, sel));
      } else {
        assert Kept(entries, sel) == Kept(tail, sel);
      }
    }
  }

  /** A type no entry has has no size. */
  /** Counting one more entry into the per-type table. */
  lemma StatsStep(byType: seq<(string, TypeStats)>, entries: Entries, i: nat,
                  files: map<string, CachedFile>, size: string -> nat)
    requires i < |entries|
    requires forall t :: StatsOf(byType, t) == ExpectedStats(entries[..i], t, files, size)
    ensures var e := entries[i].1;
      forall u :: StatsOf(AddToType(byType, KindName(e), FileSize(files, size, e.file)), u)
                  == ExpectedStats(entries[..i + 1], u, files, size)
  {
    var e := entries[i].1;
    var t := KindName(e);
    assert entries[..i + 1][..i] == entries[..i];
    assert entries[..i + 1][i] == entries[i];
    var r := AddToType(byType, t, FileSize(files, size, e.file));
    forall u
      ensures StatsOf(r, u) == ExpectedStats(entries[..i + 1], u, files, size)
    {
      if u == t && CountKind(entries[..i], u) == 0 {
        NoEntriesNoSize(entries[..i], u, files, size);
      }
    }
  }

  lemma {:induction false} NoEntriesNoSize(entries: Entries, t: string, files: map<string, CachedFile>, size: string -> nat)
    requires CountKind(entries, t) == 0
    ensures SizeKind(entries, t, files, size) == 0
  {
    if entries != [] {
      NoEntriesNoSize(entries[..|entries| - 1], t, files, size);
    }
  }

  /** A TTL of 0 is no TTL to `set`, so `get` never expires the value, but
      the metadata entry keeps the 0 and `prune_expired` removes it as soon
      as the clock moves past the time it was set. */
  lemma ZeroTtlKeptByGetRemovedByPrune(key: string, value: Json, name: string, setAt: int, later: int)
    requires later > setAt
    ensures var ttl := Some(0);
      && !HasTtl(ttl)
      && EntryExpired(Entry(Some("kv"), name, Some(setAt), ttl), later)
  {
  }

  // ---------------------------------------------------------------------
  // The global cache

  /** The 24 hours voice samples stay fresh, in milliseconds. */
  const VOICE_SAMPLES_MAX_AGE_MS := 86400 * 1000

  /** `voices.json`: the voices and the time they were cached, either of
      which a hand-written file may lack. */
  datatype VoicesFile = VoicesFile(voices: Option<Json>, cachedAt: Option<int>)

  class GlobalCache {
    var voicesFile: Option<VoicesFile>

    constructor(voicesFile: Option<VoicesFile>)
      ensures this.voicesFile == voicesFile
    {
      this.voicesFile := voicesFile;
    }

    /** `get_voice_samples`: nothing when no file is cached or when it is
        more than 24 hours old (a file without a time counts as cached at
        time 0). */
    function GetVoiceSamples(now: int): (r: Option<Json>)
      reads this
      ensures r.Some? ==> voicesFile.Some? && voicesFile.value.voices == r
      ensures voicesFile.Some? && now - voicesFile.value.cachedAt.GetOr(0) > VOICE_SAMPLES_MAX_AGE_MS ==> r.None?
    {
      match voicesFile
      case None => None
      case Some(f) => if now - f.cachedAt.GetOr(0) > VOICE_SAMPLES_MAX_AGE_MS then None else f.voices
    }

    /** `cache_voice_samples`: the voices are found for exactly 24 hours. */
    method CacheVoiceSamples(voices: Json, now: int)
      modifies this
      ensures voicesFile == Some(VoicesFile(Some(voices), Some(now)))
      ensures forall later :: GetVoiceSamples(later) == (if later - now > VOICE_SAMPLES_MAX_AGE_MS then None else Some(voices))
    {
      voicesFile := Some(VoicesFile(Some(voices), Some(now)));
    }
  }
}
