/**
  The cursor cache (protocol/whist/cursor/cursor.cpp): a map from hash to entry, each
  with the index of its last use. The indices grow for ever, through clears too; a
  cache that gets too big loses the entry with the smallest one.
 */
module CursorCache {
  import opened Wrappers

  type Hash = h: int | 0 <= h < 0x1_0000_0000

  /** Everything of a WhistCursorInfo that has no field of its own here: type, mode, size, hot spot, pixels. */
  type Picture = seq<int>

  /** A cursor as it is captured, sent and stored. A `cached` one carries no picture. */
  datatype Info = Info(png: bool, hash: Hash, cached: bool, picture: Picture)

  datatype Entry = Entry(info: Info, access: nat)

  datatype Cache = Cache(max: nat, storeData: bool, entries: map<Hash, Entry>, next: nat)

  /** Every use has its own index, older than the next one, and there are at most `max` entries. */
  ghost predicate CacheOk(c: Cache) {
    && |c.entries| <= c.max
    && Indexed(c.entries, c.next)
  }

  ghost predicate Indexed(entries: map<Hash, Entry>, next: nat) {
    && (forall h :: h in entries ==> entries[h].access < next && entries[h].info.hash == h)
    && (forall h, k :: h in entries && k in entries && h != k ==> entries[h].access != entries[k].access)
  }

  /** `h` is the least recently used entry. */
  ghost predicate IsOldest(entries: map<Hash, Entry>, h: Hash) {
    h in entries && forall k :: k in entries ==> entries[h].access <= entries[k].access
  }

  lemma {:induction false} OldestExists(entries: map<Hash, Entry>, keys: set<Hash>)
    requires keys != {} && keys <= entries.Keys
    ensures exists h :: h in keys && forall k :: k in keys ==> entries[h].access <= entries[k].access
    decreases |keys|
  {
    var x :| x in keys;
    if keys == {x} {
      assert forall k :: k in keys ==> entries[x].access <= entries[k].access;
    } else {
      var rest := keys - {x};
      OldestExists(entries, rest);
      var h :| h in rest && forall k :: k in rest ==> entries[h].access <= entries[k].access;
      var m := if entries[x].access < entries[h].access then x else h;
      assert m in keys && forall k :: k in keys ==> entries[m].access <= entries[k].access;
    }
  }

  ghost function Oldest(entries: map<Hash, Entry>): (h: Hash)
    requires |entries| > 0
    ensures IsOldest(entries, h)
  {
    assert entries.Keys != {};
    OldestExists(entries, entries.Keys);
    var h :| h in entries.Keys && forall k :: k in entries.Keys ==> entries[h].access <= entries[k].access;
    h
  }

  /** What the cache keeps of a cursor: all of it, or only the metadata marked as cached. */
  function Stored(info: Info, storeData: bool): Info {
    if storeData then info else info.(cached := true, picture := [])
  }

  function Cleared(c: Cache): Cache {
    c.(entries := map[])
  }

  /** A hit makes the entry the most recently used. */
  function Used(c: Cache, h: Hash): Cache
    requires h in c.entries
  {
    c.(entries := c.entries[h := Entry(c.entries[h].info, c.next)], next := c.next + 1)
  }

  /** The entries with a new one, before any eviction. */
  function With(c: Cache, info: Info): map<Hash, Entry> {
    c.entries[info.hash := Entry(Stored(info, c.storeData), c.next)]
  }

  /** Which entry goes when there are too many. */
  type Policy = map<Hash, Entry> -> Hash

  /** A new entry is the most recently used; when there are too many, one goes. */
  ghost function AddedBy(c: Cache, info: Info, evict: Policy): Cache {
    var entries := With(c, info);
    c.(entries := if |entries| > c.max then entries - {evict(entries)} else entries, next := c.next + 1)
  }

  /** The code's policy: the least recently used entry goes. */
  ghost function Lru(): Policy {
    (entries: map<Hash, Entry>) => if |entries| > 0 then Oldest(entries) else 0
  }

  ghost function Added(c: Cache, info: Info): Cache {
    AddedBy(c, info, Lru())
  }

  lemma UsedOk(c: Cache, h: Hash)
    requires CacheOk(c) && h in c.entries
    ensures CacheOk(Used(c, h))
  {
    assert Used(c, h).entries.Keys == c.entries.Keys;
  }

  lemma WithIndexed(c: Cache, info: Info)
    requires CacheOk(c) && info.hash !in c.entries
    ensures Indexed(With(c, info), c.next + 1)
    ensures |With(c, info)| == |c.entries| + 1
  {
    assert With(c, info).Keys == c.entries.Keys + {info.hash};
  }

  lemma AddedByOk(c: Cache, info: Info, evict: Policy)
    requires CacheOk(c) && info.hash !in c.entries && evict(With(c, info)) in With(c, info)
    ensures CacheOk(AddedBy(c, info, evict))
  {
    WithIndexed(c, info);
    var entries := With(c, info);
    if |entries| > c.max {
      assert (entries - {evict(entries)}).Keys == entries.Keys - {evict(entries)};
    }
  }

  lemma AddedOk(c: Cache, info: Info)
    requires CacheOk(c) && info.hash !in c.entries
    ensures CacheOk(Added(c, info))
  {
    WithIndexed(c, info);
    AddedByOk(c, info, Lru());
  }

  /** An addition in its two parts: the new entry, and the eviction of the oldest if there are too many. */
  lemma AddedIs(c: Cache, info: Info)
    requires CacheOk(c) && info.hash !in c.entries
    ensures var entries := With(c, info);
            && |entries| > 0 && Indexed(entries, c.next + 1)
            && CacheOk(Added(c, info))
            && Added(c, info) ==
                 c.(entries := if |entries| > c.max then entries - {Oldest(entries)} else entries, next := c.next + 1)
  {
    WithIndexed(c, info);
    AddedOk(c, info);
    hide Indexed, CacheOk, With, IsOldest;
  }

  lemma OldestIsUnique(entries: map<Hash, Entry>, next: nat, h: Hash)
    requires Indexed(entries, next) && IsOldest(entries, h) && |entries| > 0
    ensures h == Oldest(entries)
  {}

  class CursorCache {
    const maxEntries: nat
    const storeData: bool
    var entries: map<Hash, Entry>
    var nextAccess: nat

    ghost predicate Valid()
      reads this
    {
      CacheOk(View())
    }

    ghost function View(): Cache
      reads this
    {
      Cache(maxEntries, storeData, entries, nextAccess)
    }

    /** whist_cursor_cache_create */
    constructor (maxEntries: nat, storeData: bool)
      ensures Valid() && View() == Cache(maxEntries, storeData, map[], 0)
    {
      this.maxEntries := maxEntries;
      this.storeData := storeData;
      entries := map[];
      nextAccess := 0;
    }

    method Clear()
      requires Valid()
      modifies this
      ensures Valid() && View() == Cleared(old(View()))
    {
      entries := map[];
    }

    method Check(hash: Hash) returns (info: Option<Info>)
      requires Valid()
      modifies this
      ensures Valid()
      ensures hash !in old(entries) ==> info == None && View() == old(View())
      ensures hash in old(entries) ==> info == Some(old(entries)[hash].info) && View() == Used(old(View()), hash)
    {
      if hash !in entries {
        return None;
      }
      UsedOk(View(), hash);
      info := Some(entries[hash].info);
      entries := entries[hash := Entry(entries[hash].info, nextAccess)];
      nextAccess := nextAccess + 1;
    }

    /** The loop over the entries that looks for the smallest access index. */
    method FindOldest(hash: Hash) returns (oldest: Hash)
      requires hash in entries
      ensures IsOldest(entries, oldest)
    {
      oldest := hash;
      var rest := entries.Keys;
      while rest != {}
        invariant oldest in entries && rest <= entries.Keys
        invariant forall h :: h in entries && h !in rest ==> entries[oldest].access <= entries[h].access
        decreases |rest|
      {
        var h: Hash :| h in rest;
        if entries[h].access < entries[oldest].access {
          oldest := h;
        }
        rest := rest - {h};
      }
    }

    /** The caller guarantees that the hash is not in the cache yet. */
    method Add(info: Info)
      requires Valid() && info.hash !in entries
      modifies this
      ensures Valid() && View() == Added(old(View()), info)
    {
      ghost var was := View();
      hide Added, Indexed, CacheOk, With, IsOldest;
      AddedIs(was, info);
      AddEntry(info);
      if |entries| > maxEntries {
        EvictOldest(info.hash);
      }
    }

    method EvictOldest(hash: Hash)
      requires hash in entries && |entries| > 0 && Indexed(entries, nextAccess)
      modifies this`entries
      ensures entries == old(entries) - {Oldest(old(entries))}
    {
      var oldest := FindOldest(hash);
      OldestIsUnique(entries, nextAccess, oldest);
      entries := entries - {oldest};
    }

    method AddEntry(info: Info)
      modifies this
      ensures entries == With(old(View()), info) && info.hash in entries && nextAccess == old(nextAccess) + 1
    {
      entries := entries[info.hash := Entry(Stored(info, storeData), nextAccess)];
      nextAccess := nextAccess + 1;
    }
  }
}
