/**
 * The asset cache: content-addressed blobs, a key index over them, byte accounting and LRU eviction.
 * SHA-256 is taken to be injective, so a digest stands for its bytes and determines their number.
 * Every operation runs alone, as the cache's promise chain makes it; file-system calls may fail.
 */
module CacheModel {
  import opened Protocol

  type Key = string
  datatype Digest = Digest(hex: string)

  datatype Metadata = Metadata(statusCode: int, headers: map<string, seq<string>>)

  datatype Blob = Blob(size: nat, lastAccess: nat, keys: set<Key>)

  datatype KeyEntry = KeyEntry(digest: Digest, meta: Metadata)

  datatype Config = Config(maxBytes: nat, sizeOf: Digest -> nat)

  datatype Cache = Cache(
    blobs: map<Digest, Blob>,
    keys: map<Key, KeyEntry>,
    totalBytes: int,
    clock: nat,
    hits: nat,
    misses: nat)

  const EMPTY := Cache(map[], map[], 0, 0, 0, 0)

  /** `stage`: placing or discarding the temporary file throws. `rm`: removing that blob's file throws. */
  datatype Faults = Faults(stage: bool, rm: set<Digest>)

  const NO_FAULTS := Faults(false, {})

  /** How a put ends: stored, handed back uncached, or thrown at one of three awaits. */
  datatype PutResult = Stored(entry: KeyEntry) | Oversized | StageFailed | DisplaceFailed | EvictFailed

  // ---- Operations ----

  function DropBlob(c: Cache, d: Digest): Cache {
    if d !in c.blobs then c
    else c.(blobs := c.blobs - {d}, totalBytes := c.totalBytes - c.blobs[d].size, keys := c.keys - c.blobs[d].keys)
  }

  function Lookup(c: Cache, key: Key): Option<KeyEntry> {
    if key in c.keys && c.keys[key].digest in c.blobs then Some(c.keys[key]) else None
  }

  /** `onDisk` says whether the blob's file is still there. */
  function Get(c: Cache, key: Key, onDisk: bool): (Cache, Option<KeyEntry>) {
    if Lookup(c, key).None? then (c.(misses := c.misses + 1), None)
    else
      var d := c.keys[key].digest;
      if !onDisk then (DropBlob(c, d).(misses := c.misses + 1), None)
      else (c.(hits := c.hits + 1, clock := c.clock + 1, blobs := c.blobs[d := c.blobs[d].(lastAccess := c.clock + 1)]),
            Some(c.keys[key]))
  }

  /** The blob of the new bytes, inserted or touched. */
  function Stage(c: Cache, d: Digest, size: nat): Cache {
    if d in c.blobs then
      c.(clock := c.clock + 1, blobs := c.blobs[d := c.blobs[d].(lastAccess := c.clock + 1)])
    else
      c.(clock := c.clock + 1, blobs := c.blobs[d := Blob(size, c.clock + 1, {})], totalBytes := c.totalBytes + size)
  }

  /** The key leaves the blob it named before; a blob nobody names any more is removed. */
  function Displace(c: Cache, key: Key, d: Digest): Cache {
    if key !in c.keys || c.keys[key].digest == d || c.keys[key].digest !in c.blobs then c
    else
      var prev := c.keys[key].digest;
      var left := c.(blobs := c.blobs[prev := c.blobs[prev].(keys := c.blobs[prev].keys - {key})]);
      if left.blobs[prev].keys == {} then DropBlob(left, prev) else left
  }

  /** Removing the displaced blob's file is what throws. */
  predicate DisplaceThrows(c: Cache, key: Key, d: Digest, f: Faults) {
    && key in c.keys && c.keys[key].digest != d && c.keys[key].digest in c.blobs
    && c.blobs[c.keys[key].digest].keys - {key} == {}
    && c.keys[key].digest in f.rm
  }

  function Attach(c: Cache, key: Key, entry: KeyEntry): Cache
    requires entry.digest in c.blobs
  {
    var b := c.blobs[entry.digest];
    c.(keys := c.keys[key := entry], blobs := c.blobs[entry.digest := b.(keys := b.keys + {key})])
  }

  ghost predicate IsVictim(c: Cache, protected: Digest, d: Digest) {
    && d in c.blobs && d != protected
    && forall e :: e in c.blobs && e != protected ==> c.blobs[d].lastAccess <= c.blobs[e].lastAccess
  }

  /** The least recently used blob other than the protected one. */
  ghost function Victim(c: Cache, protected: Digest): (d: Digest)
    requires |c.blobs| > 1
    ensures IsVictim(c, protected, d)
  {
    VictimExists(c, protected);
    var d :| IsVictim(c, protected, d);
    d
  }

  lemma {:induction false} OldestOf(c: Cache, among: set<Digest>) returns (d: Digest)
    requires among <= c.blobs.Keys && among != {}
    ensures d in among && forall e :: e in among ==> c.blobs[d].lastAccess <= c.blobs[e].lastAccess
    decreases |among|
  {
    var x :| x in among;
    if among == {x} {
      d := x;
    } else {
      assert among - {x} != {};
      var y := OldestOf(c, among - {x});
      d := if c.blobs[x].lastAccess <= c.blobs[y].lastAccess then x else y;
    }
  }

  lemma VictimExists(c: Cache, protected: Digest)
    requires |c.blobs| > 1
    ensures exists d :: IsVictim(c, protected, d)
  {
    var others := c.blobs.Keys - {protected};
    assert |c.blobs.Keys| == |c.blobs|;
    assert others != {} by {
      if others == {} {
        assert c.blobs.Keys <= {protected};
        SubsetSize(c.blobs.Keys, {protected});
      }
    }
    var d := OldestOf(c, others);
    assert forall e :: e in c.blobs && e != protected ==> e in others;
    assert IsVictim(c, protected, d);
  }

  lemma {:induction false} SubsetSize<T>(a: set<T>, b: set<T>)
    requires a <= b
    ensures |a| <= |b|
  {
    if a != {} {
      var x :| x in a;
      SubsetSize(a - {x}, b - {x});
    }
  }

  lemma VictimIsUnique(c: Cache, protected: Digest, d: Digest)
    requires Aged(c) && |c.blobs| > 1 && IsVictim(c, protected, d)
    ensures d == Victim(c, protected)
  {}

  /** The eviction loop; true when removing a victim's file threw. */
  ghost function Evict(max: nat, c: Cache, protected: Digest, f: Faults): (Cache, bool)
    decreases |c.blobs|
  {
    if c.totalBytes <= max || |c.blobs| <= 1 then (c, false)
    else
      var d := Victim(c, protected);
      DropShrinks(c, d);
      if d in f.rm then (DropBlob(c, d), true) else Evict(max, DropBlob(c, d), protected, f)
  }

  lemma DropShrinks(c: Cache, d: Digest)
    requires d in c.blobs
    ensures |DropBlob(c, d).blobs| == |c.blobs| - 1
  {
    assert (c.blobs - {d}).Keys == c.blobs.Keys - {d};
    assert |c.blobs| == |c.blobs.Keys| && |c.blobs - {d}| == |(c.blobs - {d}).Keys|;
  }

  ghost function Put(cfg: Config, c: Cache, key: Key, entry: KeyEntry, f: Faults): (Cache, PutResult) {
    var d, size := entry.digest, cfg.sizeOf(entry.digest);
    if size > cfg.maxBytes then (c, Oversized)
    else if f.stage then (c, StageFailed)
    else
      var staged := Stage(c, d, size);
      var displaced := Displace(staged, key, d);
      if DisplaceThrows(staged, key, d, f) then (displaced, DisplaceFailed)
      else
        var (evicted, threw) := Evict(cfg.maxBytes, Attach(displaced, key, entry), d, f);
        (evicted, if threw then EvictFailed else Stored(entry))
  }

  // ---- Byte accounting ----

  ghost function TotalSize(blobs: map<Digest, Blob>): nat
    decreases |blobs|
  {
    if blobs == map[] then 0
    else
      var d :| d in blobs;
      assert (blobs - {d}).Keys == blobs.Keys - {d};
      blobs[d].size + TotalSize(blobs - {d})
  }

  lemma {:induction false} TotalWithout(blobs: map<Digest, Blob>, d: Digest)
    requires d in blobs
    ensures TotalSize(blobs) == blobs[d].size + TotalSize(blobs - {d})
    decreases |blobs|
  {
    var e :| e in blobs && TotalSize(blobs) == blobs[e].size + TotalSize(blobs - {e});
    if e != d {
      assert (blobs - {e}).Keys == blobs.Keys - {e};
      TotalWithout(blobs - {e}, d);
      TotalWithout(blobs - {d}, e) by {
        assert (blobs - {d}).Keys == blobs.Keys - {d};
        assert |blobs - {d}| < |blobs|;
      }
      assert (blobs - {e}) - {d} == (blobs - {d}) - {e};
    }
  }

  lemma TotalAfterUpdate(blobs: map<Digest, Blob>, d: Digest, b: Blob)
    ensures TotalSize(blobs[d := b]) == TotalSize(blobs) + b.size - (if d in blobs then blobs[d].size else 0)
  {
    TotalWithout(blobs[d := b], d);
    if d in blobs {
      TotalWithout(blobs, d);
      assert blobs[d := b] - {d} == blobs - {d};
    } else {
      assert blobs[d := b] - {d} == blobs;
    }
  }

  // ---- Invariant ----

  /** A blob's keys are exactly keys that name it. */
  ghost predicate BlobSide(c: Cache) {
    forall d, k :: d in c.blobs && k in c.blobs[d].keys ==> k in c.keys && c.keys[k].digest == d
  }

  ghost predicate KeySide(c: Cache, except: set<Key>) {
    forall k :: k in c.keys && k !in except ==> c.keys[k].digest in c.blobs && k in c.blobs[c.keys[k].digest].keys
  }

  ghost predicate NoOrphan(c: Cache, except: set<Digest>) {
    forall d :: d in c.blobs && d !in except ==> c.blobs[d].keys != {}
  }

  ghost predicate Accounted(c: Cache) {
    c.totalBytes == TotalSize(c.blobs)
  }

  ghost predicate Sized(cfg: Config, c: Cache) {
    forall d :: d in c.blobs ==> c.blobs[d].size == cfg.sizeOf(d) <= cfg.maxBytes
  }

  ghost predicate Aged(c: Cache) {
    && (forall d :: d in c.blobs ==> c.blobs[d].lastAccess <= c.clock)
    && (forall d, e :: d in c.blobs && e in c.blobs && d != e ==> c.blobs[d].lastAccess != c.blobs[e].lastAccess)
  }

  /** The byte count is the sum, sizes are the digests' own, and no two blobs were last used at once. */
  ghost predicate Counted(cfg: Config, c: Cache) {
    Accounted(c) && Sized(cfg, c) && Aged(c)
  }

  /** The two indexes are mutual inverses up to `key` and `d`, and no other blob is an orphan. */
  ghost predicate Indexed(c: Cache, key: set<Key>, d: set<Digest>) {
    BlobSide(c) && KeySide(c, key) && NoOrphan(c, d)
  }

  ghost predicate Inv(cfg: Config, c: Cache) {
    Counted(cfg, c) && Indexed(c, {}, {})
  }

  lemma DropCounts(cfg: Config, c: Cache, d: Digest)
    requires Counted(cfg, c)
    ensures Counted(cfg, DropBlob(c, d))
  {
    if d in c.blobs { TotalWithout(c.blobs, d); }
  }

  /** Replacing or adding one blob, with the bytes it adds. */
  lemma UpdateCounts(cfg: Config, c: Cache, t: Cache, d: Digest, b: Blob)
    requires Counted(cfg, c) && t.blobs == c.blobs[d := b] && c.clock <= t.clock
    requires b.size == cfg.sizeOf(d) <= cfg.maxBytes
    requires t.totalBytes == c.totalBytes + (if d in c.blobs then 0 else b.size)
    requires c.clock < b.lastAccess <= t.clock || (d in c.blobs && b.lastAccess == c.blobs[d].lastAccess)
    ensures Counted(cfg, t)
  {
    TotalAfterUpdate(c.blobs, d, b);
    assert Sized(cfg, t);
    assert Aged(t);
  }

  lemma DropIndexes(c: Cache, d: Digest, key: set<Key>, except: set<Digest>)
    requires Indexed(c, key, except)
    ensures Indexed(DropBlob(c, d), key, except)
  {
    var t := DropBlob(c, d);
    forall k | k in t.keys && k !in key
      ensures t.keys[k].digest in t.blobs && k in t.blobs[t.keys[k].digest].keys
    {
      assert k in c.keys && c.keys[k].digest in c.blobs && k in c.blobs[c.keys[k].digest].keys;
    }
  }

  lemma GetKeepsInv(cfg: Config, c: Cache, key: Key, onDisk: bool)
    requires Inv(cfg, c)
    ensures Inv(cfg, Get(c, key, onDisk).0)
  {
    if Lookup(c, key).Some? {
      var d := c.keys[key].digest;
      if onDisk {
        TouchKeepsInv(cfg, c, Get(c, key, true).0, d);
      } else {
        DropKeepsInv(cfg, c, d);
        SameIndexes(cfg, DropBlob(c, d), Get(c, key, false).0);
      }
    } else {
      SameIndexes(cfg, c, Get(c, key, onDisk).0);
    }
  }

  lemma SameIndexes(cfg: Config, c: Cache, t: Cache)
    requires Inv(cfg, c) && t.blobs == c.blobs && t.keys == c.keys && t.totalBytes == c.totalBytes && t.clock == c.clock
    ensures Inv(cfg, t)
  {
    assert Accounted(t) && Sized(cfg, t) && Aged(t);
    SameMaps(c, t);
  }

  lemma SameMaps(c: Cache, t: Cache)
    requires Indexed(c, {}, {}) && t.blobs == c.blobs && t.keys == c.keys
    ensures Indexed(t, {}, {})
  {}

  lemma TouchKeepsInv(cfg: Config, c: Cache, t: Cache, d: Digest)
    requires Inv(cfg, c) && d in c.blobs && t.keys == c.keys && t.totalBytes == c.totalBytes && t.clock == c.clock + 1
    requires t.blobs == c.blobs[d := c.blobs[d].(lastAccess := t.clock)]
    ensures Inv(cfg, t)
  {
    UpdateCounts(cfg, c, t, d, c.blobs[d].(lastAccess := t.clock));
    TouchIndexes(c, t, d, {}, {});
  }

  /** Changing anything but the keys of a blob leaves the indexes alone. */
  lemma TouchIndexes(c: Cache, t: Cache, d: Digest, key: set<Key>, except: set<Digest>)
    requires Indexed(c, key, except) && t.keys == c.keys
    requires d in c.blobs && d in t.blobs && t.blobs == c.blobs[d := t.blobs[d]] && t.blobs[d].keys == c.blobs[d].keys
    ensures Indexed(t, key, except)
  {}

  lemma StageKeeps(cfg: Config, c: Cache, d: Digest)
    requires Inv(cfg, c) && cfg.sizeOf(d) <= cfg.maxBytes
    ensures var s := Stage(c, d, cfg.sizeOf(d)); Counted(cfg, s) && Indexed(s, {}, {d})
  {
    var s := Stage(c, d, cfg.sizeOf(d));
    UpdateCounts(cfg, c, s, d, s.blobs[d]);
    StageIndexes(c, d, cfg.sizeOf(d));
  }

  lemma StageIndexes(c: Cache, d: Digest, size: nat)
    requires Indexed(c, {}, {})
    ensures Indexed(Stage(c, d, size), {}, {d})
  {
    if d in c.blobs {
      TouchIndexes(c, Stage(c, d, size), d, {}, {});
    } else {
      assert forall k :: k in c.keys ==> c.keys[k].digest in c.blobs;
    }
  }

  lemma DisplaceCounts(cfg: Config, c: Cache, key: Key, d: Digest)
    requires Counted(cfg, c)
    ensures Counted(cfg, Displace(c, key, d))
  {
    if key in c.keys && c.keys[key].digest != d && c.keys[key].digest in c.blobs {
      var prev := c.keys[key].digest;
      var left := c.(blobs := c.blobs[prev := c.blobs[prev].(keys := c.blobs[prev].keys - {key})]);
      UpdateCounts(cfg, c, left, prev, left.blobs[prev]);
      DropCounts(cfg, left, prev);
    }
  }

  /** No blob but `d` lists the key any more; the key may name a blob that is gone. */
  lemma DisplaceIndexes(c: Cache, key: Key, d: Digest)
    requires Indexed(c, {}, {d}) && d in c.blobs
    ensures var t := Displace(c, key, d);
      && Indexed(t, {key}, {d}) && d in t.blobs && t.keys == c.keys
      && (forall e :: e in t.blobs && e != d ==> key !in t.blobs[e].keys)
      && (key in t.keys && t.keys[key].digest != d ==>
            (t.keys[key].digest in t.blobs <==> c.blobs[c.keys[key].digest].keys != {key}))
  {
    if key in c.keys && c.keys[key].digest != d {
      var prev := c.keys[key].digest;
      var b := c.blobs[prev].(keys := c.blobs[prev].keys - {key});
      var left := c.(blobs := c.blobs[prev := b]);
      assert b.keys == {} <==> c.blobs[prev].keys == {key};
      assert Indexed(left, {key}, {d, prev});
      if b.keys == {} {
        assert left.keys - b.keys == left.keys;
        DropIndexes(left, prev, {key}, {d, prev});
      }
    }
  }

  lemma AttachKeeps(cfg: Config, c: Cache, key: Key, entry: KeyEntry)
    requires Counted(cfg, c) && Indexed(c, {key}, {entry.digest})
    requires entry.digest in c.blobs
    requires forall e :: e in c.blobs && e != entry.digest ==> key !in c.blobs[e].keys
    ensures Inv(cfg, Attach(c, key, entry))
  {
    var t := Attach(c, key, entry);
    UpdateCounts(cfg, c, t, entry.digest, t.blobs[entry.digest]);
    AttachIndexes(c, key, entry);
  }

  lemma AttachIndexes(c: Cache, key: Key, entry: KeyEntry)
    requires Indexed(c, {key}, {entry.digest}) && entry.digest in c.blobs
    requires forall e :: e in c.blobs && e != entry.digest ==> key !in c.blobs[e].keys
    ensures Indexed(Attach(c, key, entry), {}, {})
  {
    var t := Attach(c, key, entry);
    forall k | k in t.keys
      ensures t.keys[k].digest in t.blobs && k in t.blobs[t.keys[k].digest].keys
    {
      if k != key { assert k in c.keys && k in c.blobs[c.keys[k].digest].keys; }
    }
    assert key in t.blobs[entry.digest].keys;
  }

  lemma DropKeepsInv(cfg: Config, c: Cache, d: Digest)
    requires Inv(cfg, c)
    ensures Inv(cfg, DropBlob(c, d))
  {
    DropCounts(cfg, c, d);
    DropIndexes(c, d, {}, {});
  }

  /** `t` is `c` without some blobs and the keys that named them. */
  ghost predicate Restricts(t: Cache, c: Cache, protected: Digest) {
    && protected in t.blobs && protected in c.blobs && t.blobs[protected] == c.blobs[protected]
    && (forall d :: d in t.blobs ==> d in c.blobs && t.blobs[d] == c.blobs[d])
    && (forall k :: k in t.keys ==> k in c.keys && t.keys[k] == c.keys[k])
  }

  lemma {:induction false} EvictKeepsInv(cfg: Config, c: Cache, protected: Digest, f: Faults)
    requires Inv(cfg, c) && protected in c.blobs
    ensures var (t, threw) := Evict(cfg.maxBytes, c, protected, f);
      Inv(cfg, t) && Restricts(t, c, protected) && (!threw ==> t.totalBytes <= cfg.maxBytes)
    decreases |c.blobs|
  {
    if c.totalBytes <= cfg.maxBytes || |c.blobs| <= 1 {
      if |c.blobs| <= 1 { OnlyBlobFits(cfg, c, protected); }
    } else {
      var d := Victim(c, protected);
      DropShrinks(c, d);
      DropKeepsInv(cfg, c, d);
      assert Restricts(DropBlob(c, d), c, protected);
      if d !in f.rm { EvictKeepsInv(cfg, DropBlob(c, d), protected, f); }
    }
  }

  lemma OnlyBlobFits(cfg: Config, c: Cache, d: Digest)
    requires Counted(cfg, c) && d in c.blobs && |c.blobs| <= 1
    ensures c.totalBytes <= cfg.maxBytes
  {
    TotalWithout(c.blobs, d);
    DropShrinks(c, d);
    assert |c.blobs - {d}| == 0;
  }

  /**
   * A put keeps the indexes inverse exactly when it does not throw while removing the blob it displaced;
   * a stored put leaves the cache within its bytes with the entry in it.
   */
  lemma PutKeepsInv(cfg: Config, c: Cache, key: Key, entry: KeyEntry, f: Faults)
    requires Inv(cfg, c)
    ensures var (t, r) := Put(cfg, c, key, entry, f);
      && (Inv(cfg, t) <==> r != DisplaceFailed)
      && (r.Stored? ==> t.totalBytes <= cfg.maxBytes && Lookup(t, key) == Some(entry))
  {
    var d := entry.digest;
    if cfg.sizeOf(d) <= cfg.maxBytes && !f.stage {
      StageKeeps(cfg, c, d);
      var staged := Stage(c, d, cfg.sizeOf(d));
      DisplaceCounts(cfg, staged, key, d);
      DisplaceIndexes(staged, key, d);
      var displaced := Displace(staged, key, d);
      if DisplaceThrows(staged, key, d, f) {
        DanglingKey(displaced, key);
      } else {
        AttachKeeps(cfg, displaced, key, entry);
        AttachedStays(cfg, displaced, key, entry, f);
      }
    }
  }

  lemma RestrictedLookup(t: Cache, c: Cache, key: Key, entry: KeyEntry)
    requires BlobSide(t) && Restricts(t, c, entry.digest)
    requires key in c.blobs[entry.digest].keys && key in c.keys && c.keys[key] == entry
    ensures Lookup(t, key) == Some(entry)
  {
    assert key in t.blobs[entry.digest].keys;
  }

  lemma AttachedStays(cfg: Config, c: Cache, key: Key, entry: KeyEntry, f: Faults)
    requires entry.digest in c.blobs && Inv(cfg, Attach(c, key, entry))
    ensures var (t, threw) := Evict(cfg.maxBytes, Attach(c, key, entry), entry.digest, f);
      Inv(cfg, t) && (!threw ==> t.totalBytes <= cfg.maxBytes) && Lookup(t, key) == Some(entry)
  {
    var attached := Attach(c, key, entry);
    EvictKeepsInv(cfg, attached, entry.digest, f);
    RestrictedLookup(Evict(cfg.maxBytes, attached, entry.digest, f).0, attached, key, entry);
  }

  /** When the removal of a displaced blob throws: only if this key alone named that blob. */
  lemma DisplaceFailsWhen(cfg: Config, c: Cache, key: Key, entry: KeyEntry, f: Faults)
    requires Inv(cfg, c)
    ensures Put(cfg, c, key, entry, f).1 == DisplaceFailed <==>
      && cfg.sizeOf(entry.digest) <= cfg.maxBytes && !f.stage
      && key in c.keys && c.keys[key].digest != entry.digest
      && c.blobs[c.keys[key].digest].keys == {key} && c.keys[key].digest in f.rm
  {
    var d := entry.digest;
    if cfg.sizeOf(d) <= cfg.maxBytes && !f.stage {
      StageIndexes(c, d, cfg.sizeOf(d));
      var staged := Stage(c, d, cfg.sizeOf(d));
      DisplaceIndexes(staged, key, d);
      if key in c.keys && c.keys[key].digest != d {
        var prev := c.keys[key].digest;
        assert key in c.blobs[prev].keys && staged.blobs[prev] == c.blobs[prev];
        assert c.blobs[prev].keys - {key} == {} <==> c.blobs[prev].keys == {key};
      }
    }
  }

  /** What the failed removal leaves: the key still names a blob that is gone. */
  lemma DanglingKey(c: Cache, key: Key)
    requires key in c.keys && c.keys[key].digest !in c.blobs
    ensures !KeySide(c, {})
  {}

  // ---- Eviction is minimal and least recently used ----

  /** Everything in `gone` was used before everything unprotected that stays. */
  ghost predicate LruInitial(c: Cache, protected: Digest, gone: set<Digest>) {
    && gone <= c.blobs.Keys && protected !in gone
    && (forall d, e :: d in gone && e in c.blobs && e !in gone && e != protected ==>
          c.blobs[d].lastAccess < c.blobs[e].lastAccess)
  }

  ghost predicate Fits(max: nat, c: Cache, gone: set<Digest>) {
    TotalSize(c.blobs - gone) <= max
  }

  predicate Newest(c: Cache, gone: set<Digest>, d: Digest)
    requires gone <= c.blobs.Keys
  {
    d in gone && forall e :: e in gone ==> c.blobs[e].lastAccess <= c.blobs[d].lastAccess
  }

  /** An LRU-initial set that is enough, and no longer enough without its newest member. */
  ghost predicate MinimalLru(max: nat, c: Cache, protected: Digest, gone: set<Digest>) {
    && LruInitial(c, protected, gone)
    && Fits(max, c, gone)
    && (forall d :: Newest(c, gone, d) ==> !Fits(max, c, gone - {d}))
  }

  lemma {:induction false} EvictionIsMinimalLru(cfg: Config, c: Cache, protected: Digest, f: Faults) returns (gone: set<Digest>)
    requires Counted(cfg, c) && protected in c.blobs && !Evict(cfg.maxBytes, c, protected, f).1
    ensures Evict(cfg.maxBytes, c, protected, f).0.blobs == c.blobs - gone
    ensures MinimalLru(cfg.maxBytes, c, protected, gone)
    decreases |c.blobs|
  {
    if c.totalBytes <= cfg.maxBytes || |c.blobs| <= 1 {
      gone := {};
      NothingToEvict(cfg, c, protected);
    } else {
      var d := Victim(c, protected);
      DropShrinks(c, d);
      DropCounts(cfg, c, d);
      var rest := EvictionIsMinimalLru(cfg, DropBlob(c, d), protected, f);
      gone := rest + {d};
      WithoutBoth(c, d, rest);
      VictimExtends(cfg, c, protected, d, rest);
    }
  }

  lemma NothingToEvict(cfg: Config, c: Cache, protected: Digest)
    requires Counted(cfg, c) && protected in c.blobs && (c.totalBytes <= cfg.maxBytes || |c.blobs| <= 1)
    ensures c.blobs - {} == c.blobs && MinimalLru(cfg.maxBytes, c, protected, {})
  {
    assert c.blobs - {} == c.blobs;
    if |c.blobs| <= 1 { OnlyBlobFits(cfg, c, protected); }
  }

  lemma WithoutBoth(c: Cache, d: Digest, rest: set<Digest>)
    requires d in c.blobs
    ensures c.blobs - (rest + {d}) == DropBlob(c, d).blobs - rest
  {}

  lemma VictimExtends(cfg: Config, c: Cache, protected: Digest, d: Digest, rest: set<Digest>)
    requires Counted(cfg, c) && c.totalBytes > cfg.maxBytes && IsVictim(c, protected, d)
    requires MinimalLru(cfg.maxBytes, DropBlob(c, d), protected, rest)
    ensures MinimalLru(cfg.maxBytes, c, protected, rest + {d})
  {
    VictimInitial(c, protected, d, rest);
    WithoutBoth(c, d, rest);
    forall x | Newest(c, rest + {d}, x)
      ensures !Fits(cfg.maxBytes, c, rest + {d} - {x})
    {
      VictimNeeded(cfg, c, protected, d, rest, x);
    }
  }

  lemma VictimInitial(c: Cache, protected: Digest, d: Digest, rest: set<Digest>)
    requires Aged(c) && IsVictim(c, protected, d) && LruInitial(DropBlob(c, d), protected, rest)
    ensures LruInitial(c, protected, rest + {d})
  {}

  lemma VictimNeeded(cfg: Config, c: Cache, protected: Digest, d: Digest, rest: set<Digest>, x: Digest)
    requires Counted(cfg, c) && c.totalBytes > cfg.maxBytes && IsVictim(c, protected, d)
    requires MinimalLru(cfg.maxBytes, DropBlob(c, d), protected, rest)
    requires rest + {d} <= c.blobs.Keys && Newest(c, rest + {d}, x)
    ensures !Fits(cfg.maxBytes, c, rest + {d} - {x})
  {
    if x == d {
      assert forall y :: y in rest ==> y in c.blobs && c.blobs[y].lastAccess == c.blobs[d].lastAccess;
      assert rest == {};
      assert rest + {d} - {x} == {} && c.blobs - {} == c.blobs;
    } else {
      assert Newest(DropBlob(c, d), rest, x);
      WithoutBoth(c, d, rest - {x});
      assert rest + {d} - {x} == (rest - {x}) + {d};
    }
  }

  lemma {:induction false} TotalMonotone(blobs: map<Digest, Blob>, more: set<Digest>, less: set<Digest>)
    requires less <= more
    ensures TotalSize(blobs - more) <= TotalSize(blobs - less)
    decreases |more - less|
  {
    if x :| x in more && x !in less {
      assert more - (less + {x}) < more - less;
      SubsetSize(more - (less + {x}), more - less - {x});
      TotalMonotone(blobs, more, less + {x});
      if x in blobs {
        TotalWithout(blobs - less, x);
        assert (blobs - less) - {x} == blobs - (less + {x});
      } else {
        assert blobs - less == blobs - (less + {x});
      }
    } else {
      assert more == less;
    }
  }

  lemma {:induction false} NewestOf(c: Cache, among: set<Digest>) returns (d: Digest)
    requires among <= c.blobs.Keys && among != {}
    ensures Newest(c, among, d)
    decreases |among|
  {
    var x :| x in among;
    if among == {x} {
      d := x;
    } else {
      assert among - {x} != {};
      var y := NewestOf(c, among - {x});
      d := if c.blobs[x].lastAccess <= c.blobs[y].lastAccess then y else x;
    }
  }

  /** The set a minimal LRU eviction removes is determined by the cache alone. */
  lemma MinimalLruIsUnique(max: nat, c: Cache, protected: Digest, a: set<Digest>, b: set<Digest>)
    requires MinimalLru(max, c, protected, a) && MinimalLru(max, c, protected, b)
    ensures a == b
  {
    InitialSetsNest(c, protected, a, b);
    NestedIsEqual(max, c, protected, a, b);
    NestedIsEqual(max, c, protected, b, a);
  }

  lemma InitialSetsNest(c: Cache, protected: Digest, a: set<Digest>, b: set<Digest>)
    requires LruInitial(c, protected, a) && LruInitial(c, protected, b)
    ensures a <= b || b <= a
  {
    if x :| x in a && x !in b {
      forall y | y in b
        ensures y in a
      {
        assert c.blobs[y].lastAccess < c.blobs[x].lastAccess;
      }
    }
  }

  lemma NestedIsEqual(max: nat, c: Cache, protected: Digest, a: set<Digest>, b: set<Digest>)
    requires MinimalLru(max, c, protected, a) && MinimalLru(max, c, protected, b)
    ensures a <= b ==> a == b
  {
    if a < b {
      var newest := NewestOf(c, b);
      var x :| x in b && x !in a;
      assert c.blobs[x].lastAccess <= c.blobs[newest].lastAccess;
      assert a <= b - {newest};
      TotalMonotone(c.blobs, b - {newest}, a);
      assert Fits(max, c, b - {newest});
    }
  }

  // ---- Eviction when removals throw ----

  lemma {:induction false} NoRemovalThrows(max: nat, c: Cache, protected: Digest)
    ensures !Evict(max, c, protected, NO_FAULTS).1
    decreases |c.blobs|
  {
    if !(c.totalBytes <= max || |c.blobs| <= 1) {
      DropShrinks(c, Victim(c, protected));
      NoRemovalThrows(max, DropBlob(c, Victim(c, protected)), protected);
    }
  }

  /** Some member of the set that is to go, other than its newest, resists removal. */
  ghost predicate Sticks(c: Cache, gone: set<Digest>, rm: set<Digest>)
    requires gone <= c.blobs.Keys
  {
    exists d :: d in gone && d in rm && !Newest(c, gone, d)
  }

  /** The minimal set of a cache whose victim has gone, and what it says about the cache before. */
  lemma MinimalAfterVictim(cfg: Config, c: Cache, protected: Digest, gone: set<Digest>, v: Digest) returns (rest: set<Digest>)
    requires Counted(cfg, c) && protected in c.blobs && c.totalBytes > cfg.maxBytes && IsVictim(c, protected, v)
    requires MinimalLru(cfg.maxBytes, c, protected, gone)
    ensures MinimalLru(cfg.maxBytes, DropBlob(c, v), protected, rest) && gone == rest + {v} && v !in rest
  {
    DropCounts(cfg, c, v);
    NoRemovalThrows(cfg.maxBytes, DropBlob(c, v), protected);
    rest := EvictionIsMinimalLru(cfg, DropBlob(c, v), protected, NO_FAULTS);
    VictimExtends(cfg, c, protected, v, rest);
    MinimalLruIsUnique(cfg.maxBytes, c, protected, gone, rest + {v});
  }

  lemma VictimIsOlder(c: Cache, protected: Digest, v: Digest, gone: set<Digest>, rest: set<Digest>, rm: set<Digest>)
    requires Aged(c) && IsVictim(c, protected, v) && protected !in rest && v !in rest && gone <= c.blobs.Keys && gone == rest + {v}
    ensures v in rm ==> gone * rm != {} && (Sticks(c, gone, rm) <==> rest != {})
    ensures v !in rm ==> (gone * rm != {} <==> rest * rm != {}) && (Sticks(c, gone, rm) <==> Sticks(DropBlob(c, v), rest, rm))
  {
    if v in rm {
      assert v in gone * rm;
      OldestSticks(c, protected, v, gone, rest, rm);
    } else {
      assert gone * rm == rest * rm;
      RestSticks(c, protected, v, gone, rest, rm);
    }
  }

  lemma OldestSticks(c: Cache, protected: Digest, v: Digest, gone: set<Digest>, rest: set<Digest>, rm: set<Digest>)
    requires Aged(c) && IsVictim(c, protected, v) && protected !in rest && v !in rest && gone <= c.blobs.Keys && gone == rest + {v}
    requires v in rm
    ensures Sticks(c, gone, rm) <==> rest != {}
  {
    if x :| x in rest {
      assert c.blobs[v].lastAccess < c.blobs[x].lastAccess;
      assert !Newest(c, gone, v);
    }
  }

  lemma RestSticks(c: Cache, protected: Digest, v: Digest, gone: set<Digest>, rest: set<Digest>, rm: set<Digest>)
    requires Aged(c) && IsVictim(c, protected, v) && protected !in rest && v !in rest && gone <= c.blobs.Keys && gone == rest + {v}
    requires v !in rm
    ensures Sticks(c, gone, rm) <==> Sticks(DropBlob(c, v), rest, rm)
  {
    var t := DropBlob(c, v);
    forall d | d in rest
      ensures Newest(c, gone, d) <==> Newest(t, rest, d)
    {
      assert c.blobs[v].lastAccess < c.blobs[d].lastAccess;
      if Newest(t, rest, d) {
        assert forall e :: e in rest ==> c.blobs[e].lastAccess <= c.blobs[d].lastAccess by {
          assert forall e :: e in rest ==> t.blobs[e] == c.blobs[e];
        }
      }
    }
  }

  /** Enough goes exactly when the minimal set is empty. */
  lemma FitsIffNothingGoes(cfg: Config, c: Cache, protected: Digest, gone: set<Digest>)
    requires Counted(cfg, c) && protected in c.blobs && MinimalLru(cfg.maxBytes, c, protected, gone)
    ensures c.totalBytes <= cfg.maxBytes <==> gone == {}
    ensures |c.blobs| <= 1 ==> gone == {}
  {
    assert c.blobs - {} == c.blobs;
    if c.totalBytes <= cfg.maxBytes || |c.blobs| <= 1 {
      NothingToEvict(cfg, c, protected);
      MinimalLruIsUnique(cfg.maxBytes, c, protected, gone, {});
    }
  }

  lemma VictimDecides(cfg: Config, c: Cache, protected: Digest, gone: set<Digest>, v: Digest, rm: set<Digest>) returns (rest: set<Digest>)
    requires Counted(cfg, c) && protected in c.blobs && c.totalBytes > cfg.maxBytes && IsVictim(c, protected, v)
    requires MinimalLru(cfg.maxBytes, c, protected, gone)
    ensures MinimalLru(cfg.maxBytes, DropBlob(c, v), protected, rest)
    ensures v in rm ==> gone * rm != {} && (Sticks(c, gone, rm) <==> DropBlob(c, v).totalBytes > cfg.maxBytes)
    ensures v !in rm ==> (gone * rm != {} <==> rest * rm != {}) && (Sticks(c, gone, rm) <==> Sticks(DropBlob(c, v), rest, rm))
  {
    rest := MinimalAfterVictim(cfg, c, protected, gone, v);
    VictimIsOlder(c, protected, v, gone, rest, rm);
    DropCounts(cfg, c, v);
    FitsIffNothingGoes(cfg, DropBlob(c, v), protected, rest);
  }

  /**
   * Eviction throws exactly when a member of the minimal set resists removal, and it leaves too many
   * bytes exactly when one other than the newest does: the loop stops at the first, whose bytes are
   * already counted out.
   */
  lemma {:induction false} EvictUnderFaults(cfg: Config, c: Cache, protected: Digest, f: Faults, gone: set<Digest>)
    requires Counted(cfg, c) && protected in c.blobs && MinimalLru(cfg.maxBytes, c, protected, gone)
    ensures var (t, threw) := Evict(cfg.maxBytes, c, protected, f);
      && (threw <==> gone * f.rm != {})
      && (t.totalBytes > cfg.maxBytes <==> Sticks(c, gone, f.rm))
    decreases |c.blobs|
  {
    FitsIffNothingGoes(cfg, c, protected, gone);
    if !(c.totalBytes <= cfg.maxBytes || |c.blobs| <= 1) {
      var v := Victim(c, protected);
      DropShrinks(c, v);
      DropCounts(cfg, c, v);
      var rest := VictimDecides(cfg, c, protected, gone, v, f.rm);
      if v !in f.rm { EvictUnderFaults(cfg, DropBlob(c, v), protected, f, rest); }
    }
  }

  // ---- The byte limit, whatever throws ----

  lemma StageCounts(cfg: Config, c: Cache, d: Digest)
    requires Counted(cfg, c) && cfg.sizeOf(d) <= cfg.maxBytes
    ensures Counted(cfg, Stage(c, d, cfg.sizeOf(d)))
  {
    var s := Stage(c, d, cfg.sizeOf(d));
    UpdateCounts(cfg, c, s, d, s.blobs[d]);
  }

  /** The cache with the new entry in it, before anything is evicted. */
  function Entered(cfg: Config, c: Cache, key: Key, entry: KeyEntry): Cache {
    var d := entry.digest;
    Attach(Displace(Stage(c, d, cfg.sizeOf(d)), key, d), key, entry)
  }

  lemma EnteredCounts(cfg: Config, c: Cache, key: Key, entry: KeyEntry)
    requires Counted(cfg, c) && cfg.sizeOf(entry.digest) <= cfg.maxBytes
    ensures Counted(cfg, Displace(Stage(c, entry.digest, cfg.sizeOf(entry.digest)), key, entry.digest))
    ensures Counted(cfg, Entered(cfg, c, key, entry)) && entry.digest in Entered(cfg, c, key, entry).blobs
  {
    var d := entry.digest;
    StageCounts(cfg, c, d);
    DisplaceCounts(cfg, Stage(c, d, cfg.sizeOf(d)), key, d);
    var t := Displace(Stage(c, d, cfg.sizeOf(d)), key, d);
    UpdateCounts(cfg, t, Attach(t, key, entry), d, Attach(t, key, entry).blobs[d]);
  }

  lemma {:induction false} EvictCounts(cfg: Config, c: Cache, protected: Digest, f: Faults)
    requires Counted(cfg, c)
    ensures Counted(cfg, Evict(cfg.maxBytes, c, protected, f).0)
    decreases |c.blobs|
  {
    if !(c.totalBytes <= cfg.maxBytes || |c.blobs| <= 1) {
      var d := Victim(c, protected);
      DropShrinks(c, d);
      DropCounts(cfg, c, d);
      if d !in f.rm { EvictCounts(cfg, DropBlob(c, d), protected, f); }
    }
  }

  /** Byte accounting, unlike the indexes, survives every operation and every throw. */
  lemma PutCounts(cfg: Config, c: Cache, key: Key, entry: KeyEntry, f: Faults)
    requires Counted(cfg, c)
    ensures Counted(cfg, Put(cfg, c, key, entry, f).0)
  {
    if cfg.sizeOf(entry.digest) <= cfg.maxBytes && !f.stage {
      EnteredCounts(cfg, c, key, entry);
      EvictCounts(cfg, Entered(cfg, c, key, entry), entry.digest, f);
    }
  }

  lemma GetCounts(cfg: Config, c: Cache, key: Key, onDisk: bool)
    requires Counted(cfg, c)
    ensures Counted(cfg, Get(c, key, onDisk).0) && Get(c, key, onDisk).0.totalBytes <= c.totalBytes
  {
    var t := Get(c, key, onDisk).0;
    if Lookup(c, key).None? {
      assert Accounted(t) && Sized(cfg, t) && Aged(t);
    } else if onDisk {
      UpdateCounts(cfg, c, t, c.keys[key].digest, t.blobs[c.keys[key].digest]);
    } else {
      DropCounts(cfg, c, c.keys[key].digest);
      assert Accounted(t) && Sized(cfg, t) && Aged(t);
    }
  }

  /** The bytes the cache holds when removing the displaced blob throws. */
  function BytesDisplaced(cfg: Config, c: Cache, key: Key, d: Digest): int
    requires key in c.keys && c.keys[key].digest in c.blobs
  {
    c.totalBytes + (if d in c.blobs then 0 else cfg.sizeOf(d)) - c.blobs[c.keys[key].digest].size
  }

  /** A put that leaves more bytes than allowed: said of the cache before the put and of the files that resist removal. */
  ghost predicate Overflows(cfg: Config, c: Cache, key: Key, entry: KeyEntry, f: Faults) {
    && cfg.sizeOf(entry.digest) <= cfg.maxBytes && !f.stage
    && if DisplaceThrows(c, key, entry.digest, f) then BytesDisplaced(cfg, c, key, entry.digest) > cfg.maxBytes
       else
         exists gone :: MinimalLru(cfg.maxBytes, Entered(cfg, c, key, entry), entry.digest, gone)
                        && Sticks(Entered(cfg, c, key, entry), gone, f.rm)
  }

  /** From a cache within its limit, a put ends within the limit unless it overflows; how it ended does not matter. */
  lemma PutFitsIff(cfg: Config, c: Cache, key: Key, entry: KeyEntry, f: Faults)
    requires Counted(cfg, c) && c.totalBytes <= cfg.maxBytes
    ensures Put(cfg, c, key, entry, f).0.totalBytes <= cfg.maxBytes <==> !Overflows(cfg, c, key, entry, f)
  {
    var d := entry.digest;
    if cfg.sizeOf(d) <= cfg.maxBytes && !f.stage {
      EnteredCounts(cfg, c, key, entry);
      var entered := Entered(cfg, c, key, entry);
      if !DisplaceThrows(c, key, d, f) {
        NoRemovalThrows(cfg.maxBytes, entered, d);
        var gone := EvictionIsMinimalLru(cfg, entered, d, NO_FAULTS);
        EvictUnderFaults(cfg, entered, d, f, gone);
        forall other | MinimalLru(cfg.maxBytes, entered, d, other)
          ensures other == gone
        {
          MinimalLruIsUnique(cfg.maxBytes, entered, d, gone, other);
        }
      }
    }
  }

  // ---- Refinement of a map ----

  datatype Op = DoGet(key: Key, onDisk: bool) | DoPut(key: Key, entry: KeyEntry, faults: Faults)

  ghost function Do(cfg: Config, c: Cache, op: Op): Cache {
    match op
    case DoGet(key, onDisk) => Get(c, key, onDisk).0
    case DoPut(key, entry, f) => Put(cfg, c, key, entry, f).0
  }

  ghost function Run(cfg: Config, ops: seq<Op>): Cache {
    if ops == [] then EMPTY else Do(cfg, Run(cfg, ops[..|ops| - 1]), ops[|ops| - 1])
  }

  /** A put enters the map unless it is oversized or throws before the key is set. */
  ghost predicate Enters(cfg: Config, c: Cache, op: Op) {
    op.DoPut? && var r := Put(cfg, c, op.key, op.entry, op.faults).1; r.Stored? || r.EvictFailed?
  }

  /** The unbounded map: for each key the last put that entered. */
  ghost function LastPut(cfg: Config, ops: seq<Op>): map<Key, KeyEntry> {
    if ops == [] then map[]
    else
      var before, op := ops[..|ops| - 1], ops[|ops| - 1];
      if Enters(cfg, Run(cfg, before), op) then LastPut(cfg, before)[op.key := op.entry] else LastPut(cfg, before)
  }

  ghost predicate Remembers(c: Cache, last: map<Key, KeyEntry>) {
    forall k :: k in c.keys ==> k in last && c.keys[k] == last[k]
  }

  lemma {:induction false} EvictRemembers(max: nat, c: Cache, protected: Digest, f: Faults, last: map<Key, KeyEntry>)
    requires Remembers(c, last)
    ensures Remembers(Evict(max, c, protected, f).0, last)
    decreases |c.blobs|
  {
    if !(c.totalBytes <= max || |c.blobs| <= 1) {
      var d := Victim(c, protected);
      DropShrinks(c, d);
      if d !in f.rm { EvictRemembers(max, DropBlob(c, d), protected, f, last); }
    }
  }

  lemma PutRemembers(cfg: Config, c: Cache, op: Op, last: map<Key, KeyEntry>)
    requires op.DoPut? && Remembers(c, last)
    ensures Remembers(Do(cfg, c, op), if Enters(cfg, c, op) then last[op.key := op.entry] else last)
  {
    var d, size := op.entry.digest, cfg.sizeOf(op.entry.digest);
    if size <= cfg.maxBytes && !op.faults.stage {
      var staged := Stage(c, d, size);
      var displaced := Displace(staged, op.key, d);
      assert Remembers(displaced, last);
      if !DisplaceThrows(staged, op.key, d, op.faults) {
        EvictRemembers(cfg.maxBytes, Attach(displaced, op.key, op.entry), d, op.faults, last[op.key := op.entry]);
      }
    }
  }

  /**
   * The cache refines a bounded map, whatever files vanish and whatever removals throw: `get(k)` yields
   * nothing, or the last put for `k` that entered.
   */
  lemma {:induction false} GetYieldsLastPutOrNothing(cfg: Config, ops: seq<Op>, key: Key, onDisk: bool)
    ensures Remembers(Run(cfg, ops), LastPut(cfg, ops))
    ensures var r := Get(Run(cfg, ops), key, onDisk).1;
      r.Some? ==> key in LastPut(cfg, ops) && r.value == LastPut(cfg, ops)[key]
    decreases |ops|
  {
    if ops != [] {
      var before, op := ops[..|ops| - 1], ops[|ops| - 1];
      GetYieldsLastPutOrNothing(cfg, before, key, onDisk);
      if op.DoPut? { PutRemembers(cfg, Run(cfg, before), op, LastPut(cfg, before)); }
    }
  }

  ghost predicate NeverFailsToDisplace(cfg: Config, ops: seq<Op>) {
    ops != [] ==>
      var before, op := ops[..|ops| - 1], ops[|ops| - 1];
      && NeverFailsToDisplace(cfg, before)
      && (op.DoPut? ==> Put(cfg, Run(cfg, before), op.key, op.entry, op.faults).1 != DisplaceFailed)
  }

  /** The indexes stay inverse over every run in which no displaced blob's file resists removal. */
  lemma {:induction false} RunKeepsInv(cfg: Config, ops: seq<Op>)
    requires NeverFailsToDisplace(cfg, ops)
    ensures Inv(cfg, Run(cfg, ops))
    ensures ops != [] && ops[|ops| - 1].DoPut? ==>
      var op := ops[|ops| - 1];
      Put(cfg, Run(cfg, ops[..|ops| - 1]), op.key, op.entry, op.faults).1.Stored? ==>
        Run(cfg, ops).totalBytes <= cfg.maxBytes && Lookup(Run(cfg, ops), op.key) == Some(op.entry)
    decreases |ops|
  {
    if ops != [] {
      var before, op := ops[..|ops| - 1], ops[|ops| - 1];
      RunKeepsInv(cfg, before);
      match op
      case DoGet(key, onDisk) => GetKeepsInv(cfg, Run(cfg, before), key, onDisk);
      case DoPut(key, entry, f) => PutKeepsInv(cfg, Run(cfg, before), key, entry, f);
    }
  }

  /** The indexes are inverse after every operation of the run. */
  ghost predicate AlwaysIndexed(cfg: Config, ops: seq<Op>) {
    Inv(cfg, Run(cfg, ops)) && (ops != [] ==> AlwaysIndexed(cfg, ops[..|ops| - 1]))
  }

  /**
   * Over every run the indexes are mutual inverses after every operation exactly when no put throws while
   * removing the blob it displaced.
   */
  lemma {:induction false} AlwaysIndexedIff(cfg: Config, ops: seq<Op>)
    ensures AlwaysIndexed(cfg, ops) <==> NeverFailsToDisplace(cfg, ops)
    decreases |ops|
  {
    if ops != [] {
      var before, op := ops[..|ops| - 1], ops[|ops| - 1];
      AlwaysIndexedIff(cfg, before);
      if NeverFailsToDisplace(cfg, before) {
        RunKeepsInv(cfg, before);
        match op
        case DoGet(key, onDisk) => GetKeepsInv(cfg, Run(cfg, before), key, onDisk);
        case DoPut(key, entry, f) => PutKeepsInv(cfg, Run(cfg, before), key, entry, f);
      }
    } else {
      RunKeepsInv(cfg, ops);
    }
  }

  lemma RunOfTwo(cfg: Config, a: Op, b: Op)
    ensures Run(cfg, [a, b]) == Do(cfg, Do(cfg, EMPTY, a), b)
  {
    assert [a, b][..1] == [a] && [a][..0] == [];
    assert Run(cfg, [a]) == Do(cfg, EMPTY, a);
  }

  /** Two puts under one key, the first one's file resisting removal: the key names a blob that is gone, and the new blob has no key. */
  lemma DanglingRun(cfg: Config, key: Key, a: KeyEntry, b: KeyEntry) returns (ops: seq<Op>)
    requires a.digest != b.digest && cfg.sizeOf(a.digest) <= cfg.maxBytes && cfg.sizeOf(b.digest) <= cfg.maxBytes
    ensures var c := Run(cfg, ops);
      && key in c.keys && c.keys[key] == a && a.digest !in c.blobs
      && b.digest in c.blobs && c.blobs[b.digest].keys == {}
      && !Indexed(c, {}, {})
  {
    var f := Faults(false, {a.digest});
    var first, second := DoPut(key, a, NO_FAULTS), DoPut(key, b, f);
    ops := [first, second];
    RunOfTwo(cfg, first, second);
    PutWithRoom(cfg, EMPTY, key, a);
    var s1 := Do(cfg, EMPTY, first);
    DanglingPut(cfg, s1, key, a, b);
    DanglingKey(Run(cfg, ops), key);
  }

  lemma DanglingPut(cfg: Config, c: Cache, key: Key, a: KeyEntry, b: KeyEntry)
    requires key in c.keys && c.keys[key] == a && a.digest in c.blobs && c.blobs[a.digest].keys == {key}
    requires a.digest != b.digest && b.digest !in c.blobs && cfg.sizeOf(b.digest) <= cfg.maxBytes
    ensures var t := Put(cfg, c, key, b, Faults(false, {a.digest})).0;
      && key in t.keys && t.keys[key] == a && a.digest !in t.blobs
      && b.digest in t.blobs && t.blobs[b.digest].keys == {}
  {
    assert {key} - {key} == {};
  }

  /** The cache is within its limit after every operation of the run. */
  ghost predicate AlwaysFits(cfg: Config, ops: seq<Op>) {
    Run(cfg, ops).totalBytes <= cfg.maxBytes && (ops != [] ==> AlwaysFits(cfg, ops[..|ops| - 1]))
  }

  ghost predicate NeverOverflows(cfg: Config, ops: seq<Op>) {
    ops != [] ==>
      var before, op := ops[..|ops| - 1], ops[|ops| - 1];
      NeverOverflows(cfg, before) && (op.DoPut? ==> !Overflows(cfg, Run(cfg, before), op.key, op.entry, op.faults))
  }

  /**
   * Over every run, with any files vanishing and any awaits throwing, the cache is within its limit after
   * every operation exactly when no put overflows.
   */
  lemma {:induction false} AlwaysFitsIff(cfg: Config, ops: seq<Op>)
    ensures Counted(cfg, Run(cfg, ops))
    ensures AlwaysFits(cfg, ops) <==> NeverOverflows(cfg, ops)
    decreases |ops|
  {
    if ops != [] {
      var before, op := ops[..|ops| - 1], ops[|ops| - 1];
      AlwaysFitsIff(cfg, before);
      var c := Run(cfg, before);
      match op
      case DoGet(key, onDisk) =>
        GetCounts(cfg, c, key, onDisk);
        if AlwaysFits(cfg, before) { AlwaysFitsNow(cfg, before); }
      case DoPut(key, entry, f) =>
        PutCounts(cfg, c, key, entry, f);
        if AlwaysFits(cfg, before) {
          AlwaysFitsNow(cfg, before);
          PutFitsIff(cfg, c, key, entry, f);
        }
    }
  }

  lemma AlwaysFitsNow(cfg: Config, ops: seq<Op>)
    requires AlwaysFits(cfg, ops)
    ensures Run(cfg, ops).totalBytes <= cfg.maxBytes
  {}

  ghost predicate FaultFree(ops: seq<Op>) {
    forall i :: 0 <= i < |ops| && ops[i].DoPut? ==> ops[i].faults == NO_FAULTS
  }

  /** When no await throws, every reachable state has inverse indexes and is within its limit, oversized puts and vanished files included. */
  lemma {:induction false} FaultFreeRunsFit(cfg: Config, ops: seq<Op>)
    requires FaultFree(ops)
    ensures NeverFailsToDisplace(cfg, ops) && NeverOverflows(cfg, ops)
    ensures Inv(cfg, Run(cfg, ops)) && Run(cfg, ops).totalBytes <= cfg.maxBytes
    decreases |ops|
  {
    if ops != [] {
      var before, op := ops[..|ops| - 1], ops[|ops| - 1];
      FaultFreeRunsFit(cfg, before);
      if op.DoPut? { NoFaultNoOverflow(cfg, Run(cfg, before), op.key, op.entry); }
    }
    RunKeepsInv(cfg, ops);
    AlwaysFitsIff(cfg, ops);
  }

  lemma NoFaultNoOverflow(cfg: Config, c: Cache, key: Key, entry: KeyEntry)
    ensures !Overflows(cfg, c, key, entry, NO_FAULTS) && Put(cfg, c, key, entry, NO_FAULTS).1 != DisplaceFailed
  {}

  /** An oversized put is invisible: without it, every later state and the map are the same. */
  lemma {:induction false} OversizedIsInvisible(cfg: Config, before: seq<Op>, op: Op, later: seq<Op>)
    requires op.DoPut? && cfg.sizeOf(op.entry.digest) > cfg.maxBytes
    ensures Run(cfg, before + [op] + later) == Run(cfg, before + later)
    ensures LastPut(cfg, before + [op] + later) == LastPut(cfg, before + later)
    decreases |later|
  {
    var with, without := before + [op] + later, before + later;
    if later == [] {
      assert with[..|with| - 1] == before && without == before;
    } else {
      assert with[..|with| - 1] == before + [op] + later[..|later| - 1];
      assert without[..|without| - 1] == before + later[..|later| - 1];
      OversizedIsInvisible(cfg, before, op, later[..|later| - 1]);
    }
  }

  /** A put of new bytes under a new key into a cache with room. */
  lemma PutWithRoom(cfg: Config, c: Cache, key: Key, entry: KeyEntry)
    requires entry.digest !in c.blobs && key !in c.keys && c.totalBytes >= 0
    requires c.totalBytes + cfg.sizeOf(entry.digest) <= cfg.maxBytes
    ensures var t := Put(cfg, c, key, entry, NO_FAULTS).0;
      && t.blobs == c.blobs[entry.digest := Blob(cfg.sizeOf(entry.digest), c.clock + 1, {key})]
      && t.keys == c.keys[key := entry] && t.totalBytes == c.totalBytes + cfg.sizeOf(entry.digest) && t.clock == c.clock + 1
  {
    assert {} + {key} == {key};
  }

  /** A put of new bytes under a new key, the removal of whose first victim throws. */
  lemma PutStopsAt(cfg: Config, c: Cache, key: Key, entry: KeyEntry, victim: Digest)
    requires Aged(c) && entry.digest !in c.blobs && key !in c.keys && victim in c.blobs
    requires forall e :: e in c.blobs ==> c.blobs[victim].lastAccess <= c.blobs[e].lastAccess
    requires cfg.sizeOf(entry.digest) <= cfg.maxBytes < c.totalBytes + cfg.sizeOf(entry.digest)
    ensures Put(cfg, c, key, entry, Faults(false, {victim})).0.totalBytes ==
            c.totalBytes + cfg.sizeOf(entry.digest) - c.blobs[victim].size
  {
    var entered := Entered(cfg, c, key, entry);
    var d := entry.digest;
    EnteredWithRoom(cfg, c, key, entry);
    TwoBlobs(entered, victim, d);
    assert IsVictim(entered, d, victim);
    VictimIsUnique(entered, d, victim);
  }

  lemma EnteredWithRoom(cfg: Config, c: Cache, key: Key, entry: KeyEntry)
    requires Aged(c) && entry.digest !in c.blobs && key !in c.keys
    ensures var t := Entered(cfg, c, key, entry);
      && t.blobs == c.blobs[entry.digest := Blob(cfg.sizeOf(entry.digest), c.clock + 1, {key})]
      && t.totalBytes == c.totalBytes + cfg.sizeOf(entry.digest) && Aged(t)
  {
    assert {} + {key} == {key};
  }

  lemma TwoBlobs(c: Cache, a: Digest, b: Digest)
    requires a in c.blobs && b in c.blobs && a != b
    ensures |c.blobs| > 1
  {
    SubsetSize({a, b}, c.blobs.Keys);
    assert |c.blobs| == |c.blobs.Keys|;
  }

  lemma RunOfThree(cfg: Config, a: Op, b: Op, c: Op)
    ensures Run(cfg, [a, b, c]) == Do(cfg, Do(cfg, Do(cfg, EMPTY, a), b), c)
  {
    assert [a, b, c][..2] == [a, b] && [a, b][..1] == [a] && [a][..0] == [];
    assert Run(cfg, [a]) == Do(cfg, EMPTY, a);
    assert Run(cfg, [a, b]) == Do(cfg, Do(cfg, EMPTY, a), b);
  }

  /** A cache of two blobs, the first the older. */
  ghost predicate HoldsTwo(c: Cache, ka: Key, kb: Key, a: Digest, b: Digest, sizeA: nat, sizeB: nat) {
    && c.blobs == map[a := Blob(sizeA, 1, {ka}), b := Blob(sizeB, 2, {kb})]
    && c.keys.Keys == {ka, kb} && c.totalBytes == sizeA + sizeB && c.clock == 2
  }

  lemma TwoPuts(cfg: Config, ka: Key, kb: Key, a: KeyEntry, b: KeyEntry)
    requires ka != kb && a.digest != b.digest
    requires cfg.sizeOf(a.digest) + cfg.sizeOf(b.digest) <= cfg.maxBytes
    ensures HoldsTwo(Put(cfg, Put(cfg, EMPTY, ka, a, NO_FAULTS).0, kb, b, NO_FAULTS).0,
                     ka, kb, a.digest, b.digest, cfg.sizeOf(a.digest), cfg.sizeOf(b.digest))
  {
    PutWithRoom(cfg, EMPTY, ka, a);
    PutWithRoom(cfg, Put(cfg, EMPTY, ka, a, NO_FAULTS).0, kb, b);
  }

  lemma ThirdPut(cfg: Config, c: Cache, ka: Key, kb: Key, kc: Key, a: Digest, b: Digest, sizeA: nat, sizeB: nat, entry: KeyEntry)
    requires HoldsTwo(c, ka, kb, a, b, sizeA, sizeB) && a != b
    requires kc != ka && kc != kb && entry.digest != a && entry.digest != b
    requires cfg.sizeOf(entry.digest) <= cfg.maxBytes < sizeA + sizeB + cfg.sizeOf(entry.digest)
    ensures Put(cfg, c, kc, entry, Faults(false, {a})).0.totalBytes == sizeB + cfg.sizeOf(entry.digest)
  {
    PutStopsAt(cfg, c, kc, entry, a);
  }

  /** A removal that throws can leave the cache above its limit: of a limit of 10, say, with blobs of 5, 5 and 10. */
  lemma OverflowingRun(cfg: Config, ka: Key, kb: Key, kc: Key, a: KeyEntry, b: KeyEntry, big: KeyEntry) returns (ops: seq<Op>)
    requires ka != kb && kc != ka && kc != kb
    requires a.digest != b.digest && big.digest != a.digest && big.digest != b.digest
    requires cfg.sizeOf(a.digest) + cfg.sizeOf(b.digest) <= cfg.maxBytes && cfg.sizeOf(big.digest) <= cfg.maxBytes
    requires cfg.sizeOf(b.digest) + cfg.sizeOf(big.digest) > cfg.maxBytes
    ensures Run(cfg, ops).totalBytes == cfg.sizeOf(b.digest) + cfg.sizeOf(big.digest) > cfg.maxBytes
  {
    var first, second, third := DoPut(ka, a, NO_FAULTS), DoPut(kb, b, NO_FAULTS), DoPut(kc, big, Faults(false, {a.digest}));
    ops := [first, second, third];
    RunOfThree(cfg, first, second, third);
    TwoPuts(cfg, ka, kb, a, b);
    ThirdPut(cfg, Put(cfg, Put(cfg, EMPTY, ka, a, NO_FAULTS).0, kb, b, NO_FAULTS).0, ka, kb, kc, a.digest, b.digest,
             cfg.sizeOf(a.digest), cfg.sizeOf(b.digest), big);
  }
}

module AssetCache {
  import Protocol
  import opened CacheModel

  class AssetCache {
    const cfg: Config
    var blobs: map<Digest, Blob>
    var keys: map<Key, KeyEntry>
    var totalBytes: int
    var clock: nat
    var hits: nat
    var misses: nat

    ghost function View(): Cache
      reads this
    {
      Cache(blobs, keys, totalBytes, clock, hits, misses)
    }

    constructor (cfg: Config)
      ensures View() == EMPTY && this.cfg == cfg
    {
      this.cfg := cfg;
      blobs, keys, totalBytes, clock, hits, misses := map[], map[], 0, 0, 0, 0;
    }

    method Get(key: Key, onDisk: bool) returns (entry: Protocol.Option<KeyEntry>)
      modifies this
      ensures (View(), entry) == CacheModel.Get(old(View()), key, onDisk)
    {
      if key !in keys || keys[key].digest !in blobs {
        misses := misses + 1;
        return Protocol.None;
      }
      var found := keys[key];
      if !onDisk {
        DropBlob(found.digest);
        misses := misses + 1;
        return Protocol.None;
      }
      hits := hits + 1;
      clock := clock + 1;
      blobs := blobs[found.digest := blobs[found.digest].(lastAccess := clock)];
      return Protocol.Some(found);
    }

    method Put(key: Key, entry: KeyEntry, f: Faults) returns (r: PutResult)
      requires Aged(View())
      modifies this
      ensures (View(), r) == CacheModel.Put(cfg, old(View()), key, entry, f)
    {
      var d := entry.digest;
      var size := cfg.sizeOf(d);
      if size > cfg.maxBytes { return Oversized; }
      if f.stage { return StageFailed; }
      StageBlob(d, size);
      var threw := DisplaceBlob(key, d, f);
      if threw { return DisplaceFailed; }
      keys := keys[key := entry];
      blobs := blobs[d := blobs[d].(keys := blobs[d].keys + {key})];
      threw := EvictOver(d, f);
      return if threw then EvictFailed else Stored(entry);
    }

    method StageBlob(d: Digest, size: nat)
      requires Aged(View())
      modifies this`blobs, this`totalBytes, this`clock
      ensures View() == Stage(old(View()), d, size) && Aged(View())
    {
      clock := clock + 1;
      if d !in blobs {
        blobs := blobs[d := Blob(size, clock, {})];
        totalBytes := totalBytes + size;
      } else {
        blobs := blobs[d := blobs[d].(lastAccess := clock)];
      }
    }

    method DisplaceBlob(key: Key, d: Digest, f: Faults) returns (threw: bool)
      requires Aged(View())
      modifies this`blobs, this`keys, this`totalBytes
      ensures View() == Displace(old(View()), key, d) && Aged(View())
      ensures threw == DisplaceThrows(old(View()), key, d, f)
    {
      if key !in keys || keys[key].digest == d || keys[key].digest !in blobs { return false; }
      var prev := keys[key].digest;
      blobs := blobs[prev := blobs[prev].(keys := blobs[prev].keys - {key})];
      if blobs[prev].keys != {} { return false; }
      DropBlob(prev);
      return prev in f.rm;
    }

    /** Drop least recently used blobs until the bytes fit; true when a removal throws. */
    method EvictOver(protected: Digest, f: Faults) returns (threw: bool)
      requires Aged(View())
      modifies this`blobs, this`keys, this`totalBytes
      ensures (View(), threw) == Evict(cfg.maxBytes, old(View()), protected, f)
    {
      while totalBytes > cfg.maxBytes && |blobs| > 1
        invariant Aged(View())
        invariant Evict(cfg.maxBytes, View(), protected, f) == Evict(cfg.maxBytes, old(View()), protected, f)
        decreases |blobs|
      {
        ghost var before := View();
        var victim := PickVictim(protected);
        VictimIsUnique(before, protected, victim);
        DropShrinks(before, victim);
        DropBlob(victim);
        if victim in f.rm { return true; }
      }
      return false;
    }

    /** The head of the other blobs sorted by last access. */
    method PickVictim(protected: Digest) returns (victim: Digest)
      requires |blobs| > 1
      ensures IsVictim(View(), protected, victim)
    {
      VictimExists(View(), protected);
      var todo := blobs.Keys - {protected};
      ghost var w :| IsVictim(View(), protected, w);
      assert w in todo;
      victim :| victim in todo;
      todo := todo - {victim};
      while todo != {}
        invariant todo <= blobs.Keys - {protected} && victim in blobs && victim != protected
        invariant forall e :: e in blobs && e != protected && e !in todo ==> blobs[victim].lastAccess <= blobs[e].lastAccess
        decreases |todo|
      {
        var d :| d in todo;
        todo := todo - {d};
        if blobs[d].lastAccess < blobs[victim].lastAccess { victim := d; }
      }
    }

    method DropBlob(d: Digest)
      modifies this`blobs, this`keys, this`totalBytes
      ensures View() == CacheModel.DropBlob(old(View()), d)
      ensures old(Aged(View())) ==> Aged(View())
    {
      if d !in blobs { return; }
      var b := blobs[d];
      blobs := blobs - {d};
      totalBytes := totalBytes - b.size;
      var todo := b.keys;
      while todo != {}
        invariant todo <= b.keys && keys == old(keys) - (b.keys - todo)
        invariant blobs == old(blobs) - {d} && totalBytes == old(totalBytes) - b.size
        decreases |todo|
      {
        var key :| key in todo;
        todo := todo - {key};
        keys := keys - {key};
      }
      assert b.keys - todo == b.keys;
    }
  }
}
