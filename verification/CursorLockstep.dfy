/**
  The server's cursor cache (send_populated_frames in protocol/server/video.c) and the
  client's (render_video in protocol/client/video.cpp). They never exchange their
  state; the client only sees the frames. A failed FATAL_ASSERT is Crash.
 */
module CursorLockstep {
  import opened Wrappers
  import opened CursorCache

  /** What the server captured for one populated frame. */
  datatype Capture = Capture(recovery: bool, cursor: Info)

  datatype Frame = Frame(recovery: bool, cursor: Option<Info>)

  datatype Server = Server(cache: Cache, lastHash: Hash)

  datatype Client = Client(cache: Cache, shown: Option<Info>)

  datatype Outcome = Crash | Rendered(client: Client)

  /** The cursor part of send_populated_frames. */
  ghost function Send(s: Server, c: Capture, evict: Policy): (Server, Frame) {
    var s1 := if c.recovery then Server(Cleared(s.cache), 0) else s;
    if c.cursor.hash == s1.lastHash then (s1, Frame(c.recovery, None))
    else if !c.cursor.png then (s1.(lastHash := c.cursor.hash), Frame(c.recovery, Some(c.cursor)))
    else if c.cursor.hash in s1.cache.entries then
      (Server(Used(s1.cache, c.cursor.hash), c.cursor.hash),
       Frame(c.recovery, Some(s1.cache.entries[c.cursor.hash].info)))
    else
      (Server(AddedBy(s1.cache, c.cursor, evict), c.cursor.hash), Frame(c.recovery, Some(c.cursor)))
  }

  /** The cursor part of render_video, for a frame the decoder accepted. */
  ghost function Render(c: Client, f: Frame, evict: Policy): Outcome {
    var c1 := if f.recovery then c.(cache := Cleared(c.cache)) else c;
    if f.cursor.None? then if f.recovery then Crash else Rendered(c1)
    else
      var sent := f.cursor.value;
      if !sent.png then if sent.cached then Crash else Rendered(c1.(shown := Some(sent)))
      else if sent.hash in c1.cache.entries then
        if !sent.cached then Crash
        else Rendered(Client(Used(c1.cache, sent.hash), Some(c1.cache.entries[sent.hash].info)))
      else if sent.cached then Crash
      else Rendered(Client(AddedBy(c1.cache, sent, evict), Some(sent)))
  }

  /** Captured cursors are never marked as cached. */
  predicate Captured(c: Capture) {
    !c.cursor.cached
  }

  // ------------------------------------------------------------------- lockstep

  /** The two caches hold the same hashes and agree on which was used before which. */
  ghost predicate SameOrder(a: map<Hash, Entry>, b: map<Hash, Entry>) {
    && a.Keys == b.Keys
    && forall h, k :: h in a && k in a ==> (a[h].access < a[k].access <==> b[h].access < b[k].access)
  }

  /** What is evicted is an entry, and depends only on which entries there are and in which order they were used. */
  ghost predicate OrderDetermined(evict: Policy) {
    forall a, b, n, m :: |a| > 0 && Indexed(a, n) && Indexed(b, m) && SameOrder(a, b) ==>
      evict(a) in a && evict(a) == evict(b)
  }

  lemma SameEvicted(a: map<Hash, Entry>, b: map<Hash, Entry>, n: nat, m: nat, evict: Policy)
    requires OrderDetermined(evict) && SameOrder(a, b) && Indexed(a, n) && Indexed(b, m) && |a| > 0
    ensures evict(a) in a && evict(a) == evict(b)
  {}

  lemma EvictsAnEntry(c: Cache, info: Info, evict: Policy)
    requires OrderDetermined(evict) && CacheOk(c) && info.hash !in c.entries
    ensures evict(With(c, info)) in With(c, info)
  {
    WithIndexed(c, info);
    var entries := With(c, info);
    assert SameOrder(entries, entries);
    SameEvicted(entries, entries, c.next + 1, c.next + 1, evict);
  }

  /** The code's policy is one of these. */
  lemma LruOrderDetermined()
    ensures OrderDetermined(Lru())
  {
    forall a: map<Hash, Entry>, b: map<Hash, Entry>, n: nat, m: nat
      | |a| > 0 && Indexed(a, n) && Indexed(b, m) && SameOrder(a, b)
      ensures Lru()(a) in a && Lru()(a) == Lru()(b)
    {
      SameOldest(a, b, n, m);
    }
  }

  lemma SameOldest(a: map<Hash, Entry>, b: map<Hash, Entry>, n: nat, m: nat)
    requires SameOrder(a, b) && Indexed(a, n) && Indexed(b, m) && |a| > 0
    ensures |b| > 0 && Oldest(a) == Oldest(b)
  {
    assert a.Keys == b.Keys;
    var x, y := Oldest(a), Oldest(b);
    assert a[x].access < a[y].access <==> b[x].access < b[y].access;
  }

  lemma SameAfterUse(a: Cache, b: Cache, h: Hash)
    requires CacheOk(a) && CacheOk(b) && SameOrder(a.entries, b.entries) && h in a.entries
    ensures SameOrder(Used(a, h).entries, Used(b, h).entries)
  {}

  lemma SameWith(a: Cache, b: Cache, x: Info, y: Info)
    requires CacheOk(a) && CacheOk(b) && SameOrder(a.entries, b.entries) && x.hash == y.hash && x.hash !in a.entries
    ensures SameOrder(With(a, x), With(b, y))
  {}

  lemma SameAfterAdd(a: Cache, b: Cache, x: Info, y: Info, evict: Policy)
    requires OrderDetermined(evict)
    requires CacheOk(a) && CacheOk(b) && a.max == b.max
    requires SameOrder(a.entries, b.entries) && x.hash == y.hash && x.hash !in a.entries
    ensures SameOrder(AddedBy(a, x, evict).entries, AddedBy(b, y, evict).entries)
  {
    SameWith(a, b, x, y);
    WithIndexed(a, x);
    WithIndexed(b, y);
    var p, q := With(a, x), With(b, y);
    hide With, Indexed, CacheOk;
    SameSize(p, q);
    SameEvicted(p, q, a.next + 1, b.next + 1, evict);
    SameWithout(p, q, evict(p));
    hide SameOrder, OrderDetermined;
  }

  lemma SameSize(a: map<Hash, Entry>, b: map<Hash, Entry>)
    requires SameOrder(a, b)
    ensures |a| == |b|
  {
    assert |a| == |a.Keys| == |b.Keys| == |b|;
  }

  lemma SameWithout(a: map<Hash, Entry>, b: map<Hash, Entry>, h: Hash)
    requires SameOrder(a, b)
    ensures SameOrder(a - {h}, b - {h})
  {}

  /** What the server keeps is metadata marked as cached; what the client keeps is what it was sent in full. */
  ghost predicate LinkedCaches(a: Cache, b: Cache) {
    && CacheOk(a) && CacheOk(b) && a.max == b.max
    && !a.storeData && b.storeData
    && SameOrder(a.entries, b.entries)
    && (forall h :: h in a.entries ==> a.entries[h].info.png && a.entries[h].info.cached)
  }

  ghost predicate Linked(s: Server, c: Client) {
    && LinkedCaches(s.cache, c.cache)
    && c.shown.Some? && c.shown.value.hash == s.lastHash
  }

  /** Before a recovery point nothing at all relates the two peers. */
  ghost predicate Unrelated(s: Server, c: Client) {
    && CacheOk(s.cache) && CacheOk(c.cache) && s.cache.max == c.cache.max
    && !s.cache.storeData && c.cache.storeData
  }

  /** A recovery point makes the two caches agree, whatever they held. */
  lemma RecoveryLinks(s: Server, c: Client, cap: Capture, evict: Policy)
    requires OrderDetermined(evict)
    requires Unrelated(s, c) && cap.recovery && Captured(cap)
    ensures var (s1, f) := Send(s, cap, evict);
            && (Render(c, f, evict).Crash? <==> cap.cursor.hash == 0)
            && (cap.cursor.hash != 0 ==>
                  && Linked(s1, Render(c, f, evict).client)
                  && Render(c, f, evict).client.shown == Some(cap.cursor))
  {
    var s0, c0 := Cleared(s.cache), Cleared(c.cache);
    assert LinkedCaches(s0, c0);
    if cap.cursor.png && cap.cursor.hash != 0 {
      LinkedAfterAdd(s0, c0, cap.cursor, evict);
    }
    hide LinkedCaches, AddedBy;
  }

  /** What a cache holds after an addition is what it held before or the new cursor. */
  lemma AddedInfos(c: Cache, info: Info, evict: Policy)
    ensures var d := AddedBy(c, info, evict);
            && d.max == c.max && d.storeData == c.storeData
            && forall h :: h in d.entries ==>
                 if h == info.hash then d.entries[h].info == Stored(info, c.storeData)
                 else h in c.entries && d.entries[h].info == c.entries[h].info
  {}

  lemma LinkedAfterAdd(a: Cache, b: Cache, info: Info, evict: Policy)
    requires OrderDetermined(evict)
    requires LinkedCaches(a, b) && info.png && info.hash !in a.entries
    ensures info.hash !in b.entries
    ensures LinkedCaches(AddedBy(a, info, evict), AddedBy(b, info, evict))
  {
    assert info.hash !in b.entries;
    SameAfterAdd(a, b, info, info, evict);
    EvictsAnEntry(a, info, evict);
    EvictsAnEntry(b, info, evict);
    AddedByOk(a, info, evict);
    AddedByOk(b, info, evict);
    AddedInfos(a, info, evict);
    AddedInfos(b, info, evict);
    hide SameOrder, CacheOk, AddedBy;
  }

  lemma LinkedAfterUse(a: Cache, b: Cache, h: Hash)
    requires LinkedCaches(a, b) && h in a.entries
    ensures h in b.entries && a.entries[h].info.hash == h && b.entries[h].info.hash == h
    ensures LinkedCaches(Used(a, h), Used(b, h))
  {
    assert h in b.entries;
    assert a.entries[h].info.hash == h && b.entries[h].info.hash == h;
    SameAfterUse(a, b, h);
    UsedOk(a, h);
    UsedOk(b, h);
    hide SameOrder, CacheOk;
    UsedInfos(a, h);
    UsedInfos(b, h);
    hide Used;
  }

  /** A use changes the access index only. */
  lemma UsedInfos(c: Cache, h: Hash)
    requires h in c.entries
    ensures var d := Used(c, h);
            && d.max == c.max && d.storeData == c.storeData
            && forall k :: k in d.entries ==> k in c.entries && d.entries[k].info == c.entries[k].info
  {}

  /** What is sent and what happens on both sides when the cursor is in both caches. */
  lemma HitEffect(s: Server, c: Client, cap: Capture, evict: Policy)
    requires !cap.recovery && cap.cursor.png && cap.cursor.hash != s.lastHash
    requires cap.cursor.hash in s.cache.entries && cap.cursor.hash in c.cache.entries
    requires var info := s.cache.entries[cap.cursor.hash].info; info.png && info.cached && info.hash == cap.cursor.hash
    ensures var (s1, f) := Send(s, cap, evict);
            && s1 == Server(Used(s.cache, cap.cursor.hash), cap.cursor.hash)
            && f == Frame(false, Some(s.cache.entries[cap.cursor.hash].info))
            && Render(c, f, evict) ==
                 Rendered(Client(Used(c.cache, cap.cursor.hash), Some(c.cache.entries[cap.cursor.hash].info)))
  {
    hide Used;
  }

  lemma HitKeepsLink(s: Server, c: Client, cap: Capture, evict: Policy)
    requires Linked(s, c) && !cap.recovery && cap.cursor.png
    requires cap.cursor.hash != s.lastHash && cap.cursor.hash in s.cache.entries
    ensures var (s1, f) := Send(s, cap, evict);
            && Render(c, f, evict).Rendered?
            && Linked(s1, Render(c, f, evict).client)
            && f.cursor.Some? && f.cursor.value.hash == cap.cursor.hash && f.cursor.value.cached
            && cap.cursor.hash in c.cache.entries
            && Render(c, f, evict).client ==
                 Client(Used(c.cache, cap.cursor.hash), Some(c.cache.entries[cap.cursor.hash].info))
  {
    LinkedAfterUse(s.cache, c.cache, cap.cursor.hash);
    assert s.cache.entries[cap.cursor.hash].info.png && s.cache.entries[cap.cursor.hash].info.cached;
    hide LinkedCaches, Used;
    HitEffect(s, c, cap, evict);
    hide Send, Render;
  }

  /** What is sent and what happens on both sides when the cursor is in neither cache. */
  lemma MissEffect(s: Server, c: Client, cap: Capture, evict: Policy)
    requires !cap.recovery && cap.cursor.png && Captured(cap)
    requires cap.cursor.hash != s.lastHash && cap.cursor.hash !in s.cache.entries && cap.cursor.hash !in c.cache.entries
    ensures var (s1, f) := Send(s, cap, evict);
            && s1 == Server(AddedBy(s.cache, cap.cursor, evict), cap.cursor.hash)
            && f == Frame(false, Some(cap.cursor))
            && Render(c, f, evict) == Rendered(Client(AddedBy(c.cache, cap.cursor, evict), Some(cap.cursor)))
  {
    hide AddedBy;
  }

  lemma MissKeepsLink(s: Server, c: Client, cap: Capture, evict: Policy)
    requires OrderDetermined(evict)
    requires Linked(s, c) && !cap.recovery && cap.cursor.png && Captured(cap)
    requires cap.cursor.hash != s.lastHash && cap.cursor.hash !in s.cache.entries
    ensures var (s1, f) := Send(s, cap, evict);
            && cap.cursor.hash !in c.cache.entries
            && f.cursor == Some(cap.cursor)
            && Render(c, f, evict) == Rendered(Client(AddedBy(c.cache, cap.cursor, evict), Some(cap.cursor)))
            && Linked(s1, Render(c, f, evict).client)
  {
    hide LinkedCaches, AddedBy;
    LinkedAfterAdd(s.cache, c.cache, cap.cursor, evict);
    MissEffect(s, c, cap, evict);
    hide Send, Render;
  }

  /** Between recovery points every frame finds the caches in step, and leaves them so. */
  lemma FrameKeepsLink(s: Server, c: Client, cap: Capture, evict: Policy)
    requires OrderDetermined(evict)
    requires Linked(s, c) && !cap.recovery && Captured(cap)
    ensures var (s1, f) := Send(s, cap, evict);
            && Render(c, f, evict).Rendered?
            && Linked(s1, Render(c, f, evict).client)
            && Render(c, f, evict).client.shown.value.hash == cap.cursor.hash
            && (f.cursor.Some? && f.cursor.value.png ==>
                  (f.cursor.value.hash in c.cache.entries <==> f.cursor.value.cached))
  {
    var h := cap.cursor.hash;
    if h != s.lastHash && cap.cursor.png {
      if h in s.cache.entries {
        assert c.cache.entries[h].info.hash == h;
        hide LinkedCaches, Used, AddedBy, Send, Render;
        HitKeepsLink(s, c, cap, evict);
      } else {
        hide LinkedCaches, Used, AddedBy, Send, Render;
        MissKeepsLink(s, c, cap, evict);
      }
    } else {
      hide LinkedCaches, Used, AddedBy;
    }
  }

  /** The client renders, in order, every frame made from `captures`. */
  ghost function Play(s: Server, c: Client, captures: seq<Capture>, evict: Policy): (Server, Outcome) {
    if captures == [] then (s, Rendered(c))
    else
      var (s1, before) := Play(s, c, captures[..|captures| - 1], evict);
      var (s2, f) := Send(s1, captures[|captures| - 1], evict);
      (s2, if before.Crash? then Crash else Render(before.client, f, evict))
  }

  /** A recovery point whose cursor hashes to 0, which the server takes for no change. */
  ghost predicate HasZeroRecovery(captures: seq<Capture>) {
    exists k :: 0 <= k < |captures| && captures[k].recovery && captures[k].cursor.hash == 0
  }

  /**
    Lockstep, for any eviction policy that goes by the order of use. From any two
    unrelated caches, a client that starts at a recovery point
    and renders every later frame fails an assertion if and only if some recovery
    point's cursor hashes to 0; otherwise the caches agree after every frame and the
    cursor shown has the hash of the server's current one.
   */
  lemma {:induction false} Lockstep(s: Server, c: Client, captures: seq<Capture>, evict: Policy)
    requires OrderDetermined(evict)
    requires Unrelated(s, c) && |captures| > 0 && captures[0].recovery
    requires forall k :: 0 <= k < |captures| ==> Captured(captures[k])
    ensures var (s1, o) := Play(s, c, captures, evict);
            && (o.Crash? <==> HasZeroRecovery(captures))
            && (o.Rendered? ==>
                  && Linked(s1, o.client)
                  && o.client.shown.value.hash == captures[|captures| - 1].cursor.hash)
    decreases |captures|
  {
    var n := |captures| - 1;
    var init, last := captures[..n], captures[n];
    assert HasZeroRecovery(captures) <==> HasZeroRecovery(init) || (last.recovery && last.cursor.hash == 0) by {
      if HasZeroRecovery(init) {
        var k :| 0 <= k < n && init[k].recovery && init[k].cursor.hash == 0;
        assert captures[k].recovery;
      }
      assert captures[n] == last;
    }
    if n == 0 {
      assert init == [];
      RecoveryLinks(s, c, last, evict);
    } else {
      Lockstep(s, c, init, evict);
      var (s1, before) := Play(s, c, init, evict);
      if before.Rendered? {
        StepOn(s1, before.client, last, evict);
      }
    }
  }

  /** Lockstep of the program as it is, which evicts the least recently used entry. */
  lemma LruLockstep(s: Server, c: Client, captures: seq<Capture>)
    requires Unrelated(s, c) && |captures| > 0 && captures[0].recovery
    requires forall k :: 0 <= k < |captures| ==> Captured(captures[k])
    ensures var (s1, o) := Play(s, c, captures, Lru());
            && (o.Crash? <==> HasZeroRecovery(captures))
            && (o.Rendered? ==>
                  && Linked(s1, o.client)
                  && o.client.shown.value.hash == captures[|captures| - 1].cursor.hash)
  {
    LruOrderDetermined();
    Lockstep(s, c, captures, Lru());
  }

  lemma StepOn(s: Server, c: Client, cap: Capture, evict: Policy)
    requires OrderDetermined(evict)
    requires Linked(s, c) && Captured(cap)
    ensures var (s1, f) := Send(s, cap, evict);
            && (Render(c, f, evict).Crash? <==> cap.recovery && cap.cursor.hash == 0)
            && (Render(c, f, evict).Rendered? ==>
                  && Linked(s1, Render(c, f, evict).client)
                  && Render(c, f, evict).client.shown.value.hash == cap.cursor.hash)
  {
    if cap.recovery {
      RecoveryLinks(s, c, cap, evict);
    } else {
      FrameKeepsLink(s, c, cap, evict);
    }
  }

  // ------------------------------------------------------------------- pictures

  /** Every cursor the client holds or shows is the one its hash stands for. */
  ghost predicate Faithful(c: Client, look: Hash -> Info) {
    && (forall h :: h in c.cache.entries ==> c.cache.entries[h].info == look(h))
    && (c.shown.Some? ==> c.shown.value == look(c.shown.value.hash))
  }

  lemma FaithfulAdd(c: Client, info: Info, look: Hash -> Info, evict: Policy)
    requires c.cache.storeData && Faithful(c, look) && info == look(info.hash)
    ensures Faithful(Client(AddedBy(c.cache, info, evict), Some(info)), look)
  {
    AddedInfos(c.cache, info, evict);
    hide AddedBy;
  }

  lemma FaithfulMiss(s: Server, c: Client, cap: Capture, look: Hash -> Info, evict: Policy)
    requires OrderDetermined(evict)
    requires Linked(s, c) && Faithful(c, look) && Captured(cap) && cap.cursor == look(cap.cursor.hash)
    requires !cap.recovery && cap.cursor.png && cap.cursor.hash != s.lastHash && cap.cursor.hash !in s.cache.entries
    ensures var (s1, f) := Send(s, cap, evict); Faithful(Render(c, f, evict).client, look)
  {
    LinkedAfterAdd(s.cache, c.cache, cap.cursor, evict);
    FaithfulAdd(c, cap.cursor, look, evict);
    hide LinkedCaches, AddedBy, Faithful;
    MissEffect(s, c, cap, evict);
    hide Send, Render;
  }

  lemma FaithfulHit(s: Server, c: Client, cap: Capture, look: Hash -> Info, evict: Policy)
    requires Linked(s, c) && Faithful(c, look)
    requires !cap.recovery && cap.cursor.png && cap.cursor.hash != s.lastHash && cap.cursor.hash in s.cache.entries
    ensures var (s1, f) := Send(s, cap, evict); Faithful(Render(c, f, evict).client, look)
  {
    HitKeepsLink(s, c, cap, evict);
    hide LinkedCaches, Linked, Send, Render;
    UsedInfos(c.cache, cap.cursor.hash);
    hide Used;
  }

  lemma FaithfulRecovery(s: Server, c: Client, cap: Capture, look: Hash -> Info, evict: Policy)
    requires c.cache.storeData && Captured(cap) && cap.cursor == look(cap.cursor.hash) && cap.recovery
    ensures var (s1, f) := Send(s, cap, evict);
            Render(c, f, evict).Rendered? ==> Faithful(Render(c, f, evict).client, look)
  {
    AddedInfos(Cleared(c.cache), cap.cursor, evict);
    hide AddedBy;
  }

  lemma FaithfulStep(s: Server, c: Client, cap: Capture, look: Hash -> Info, evict: Policy)
    requires OrderDetermined(evict)
    requires Linked(s, c) && Faithful(c, look) && Captured(cap) && cap.cursor == look(cap.cursor.hash)
    ensures var (s1, f) := Send(s, cap, evict);
            Render(c, f, evict).Rendered? ==> Faithful(Render(c, f, evict).client, look)
  {
    hide SameOrder, CacheOk, AddedBy;
    if cap.recovery {
      FaithfulRecovery(s, c, cap, look, evict);
    } else if cap.cursor.png && cap.cursor.hash != s.lastHash {
      hide Send, Render, Faithful;
      if cap.cursor.hash in s.cache.entries {
        FaithfulHit(s, c, cap, look, evict);
      } else {
        FaithfulMiss(s, c, cap, look, evict);
      }
    }
  }

  lemma {:induction false} FaithfulPlay(s: Server, c: Client, captures: seq<Capture>, look: Hash -> Info, evict: Policy)
    requires OrderDetermined(evict)
    requires Unrelated(s, c) && |captures| > 0 && captures[0].recovery
    requires forall k :: 0 <= k < |captures| ==>
               Captured(captures[k]) && captures[k].cursor == look(captures[k].cursor.hash)
    ensures var (s1, o) := Play(s, c, captures, evict); o.Rendered? ==> Faithful(o.client, look)
    decreases |captures|
  {
    var n := |captures| - 1;
    var init, last := captures[..n], captures[n];
    if n == 0 {
      assert init == [];
      AddedInfos(Cleared(c.cache), last.cursor, evict);
      hide CacheOk, AddedBy;
    } else {
      Lockstep(s, c, init, evict);
      FaithfulPlay(s, c, init, look, evict);
      var (s1, before) := Play(s, c, init, evict);
      hide Linked, Faithful, Send, Render;
      if before.Rendered? {
        FaithfulStep(s1, before.client, last, look, evict);
      }
    }
  }

  /** When hashes identify cursors, the client shows exactly the server's current cursor. */
  lemma ClientShowsServerCursor(s: Server, c: Client, captures: seq<Capture>, evict: Policy)
    requires OrderDetermined(evict)
    requires Unrelated(s, c) && |captures| > 0 && captures[0].recovery
    requires forall k :: 0 <= k < |captures| ==> Captured(captures[k])
    requires forall j, k :: 0 <= j < |captures| && 0 <= k < |captures| ==>
               captures[j].cursor.hash == captures[k].cursor.hash ==> captures[j].cursor == captures[k].cursor
    requires !HasZeroRecovery(captures)
    ensures var (s1, o) := Play(s, c, captures, evict);
            o.Rendered? && o.client.shown == Some(captures[|captures| - 1].cursor)
  {
    var look := (h: Hash) =>
      if exists k :: 0 <= k < |captures| && captures[k].cursor.hash == h
      then (var k :| 0 <= k < |captures| && captures[k].cursor.hash == h; captures[k].cursor)
      else captures[0].cursor;
    FaithfulPlay(s, c, captures, look, evict);
    Lockstep(s, c, captures, evict);
  }

  /** The assertion does fail: one recovery point with a cursor that hashes to 0. */
  lemma ZeroHashCrashes()
    ensures var empty := Cache(20, false, map[], 0);
            var frames := [Capture(true, Info(true, 0, false, []))];
            Play(Server(empty, 0), Client(empty.(storeData := true), None), frames, Lru()).1.Crash?
  {
    var empty := Cache(20, false, map[], 0);
    LruOrderDetermined();
    var frames := [Capture(true, Info(true, 0, false, []))];
    Lockstep(Server(empty, 0), Client(empty.(storeData := true), None), frames, Lru());
    assert frames[0].recovery;
  }

  // ------------------------------------------------------------- the two programs

  /** cursor_cache and last_cursor_hash of the server state. */
  class CursorSender {
    const cache: CursorCache
    var lastHash: Hash

    ghost function View(): Server
      reads this, cache
    {
      Server(cache.View(), lastHash)
    }

    constructor (maxEntries: nat)
      ensures cache.Valid() && fresh(cache)
      ensures View() == Server(Cache(maxEntries, false, map[], 0), 0)
    {
      cache := new CursorCache(maxEntries, false);
      lastHash := 0;
    }

    /** Returns the cursor put into the frame, if any. */
    method Populate(recovery: bool, cursor: Info) returns (sent: Option<Info>)
      requires cache.Valid()
      modifies this, cache
      ensures cache.Valid()
      ensures (View(), Frame(recovery, sent)) == Send(old(View()), Capture(recovery, cursor), Lru())
    {
      if recovery {
        cache.Clear();
        lastHash := 0;
      }
      if cursor.hash == lastHash {
        return None;
      }
      if cursor.png {
        var cached := cache.Check(cursor.hash);
        if cached.Some? {
          sent := cached;
        } else {
          cache.Add(cursor);
          sent := Some(cursor);
        }
      } else {
        sent := Some(cursor);
      }
      lastHash := cursor.hash;
    }
  }

  /** cursor_cache of the client's video context, and the cursor last set as pending. */
  class CursorReceiver {
    const cache: CursorCache
    var shown: Option<Info>

    ghost function View(): Client
      reads this, cache
    {
      Client(cache.View(), shown)
    }

    constructor (maxEntries: nat)
      ensures cache.Valid() && fresh(cache)
      ensures View() == Client(Cache(maxEntries, true, map[], 0), None)
    {
      cache := new CursorCache(maxEntries, true);
      shown := None;
    }

    /** False stands for a failed FATAL_ASSERT. */
    method ShowCursor(recovery: bool, cursor: Option<Info>) returns (ok: bool)
      requires cache.Valid()
      modifies this, cache
      ensures cache.Valid()
      ensures ok <==> Render(old(View()), Frame(recovery, cursor), Lru()).Rendered?
      ensures ok ==> Rendered(View()) == Render(old(View()), Frame(recovery, cursor), Lru())
    {
      if recovery {
        cache.Clear();
        if cursor.None? {
          return false;
        }
      }
      if cursor.None? {
        return true;
      }
      var info := cursor.value;
      if !info.png {
        if info.cached {
          return false;
        }
        shown := Some(info);
        return true;
      }
      var cached := cache.Check(info.hash);
      if cached.Some? {
        if !info.cached {
          return false;
        }
        shown := cached;
      } else {
        if info.cached {
          return false;
        }
        cache.Add(info);
        shown := Some(info);
      }
      ok := true;
    }
  }
}
