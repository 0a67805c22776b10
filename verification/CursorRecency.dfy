/**
  What the cursor cache (protocol/whist/cursor/cursor.cpp) holds, told by the uses alone: the
  `max` distinct cursors that were used most recently.
 */
module CursorRecency {
  import opened CursorCache

  /** One use of a cursor: a hit refreshes its entry, a miss adds one. */
  ghost function Touched(c: Cache, info: Info): Cache {
    if info.hash in c.entries then Used(c, info.hash) else Added(c, info)
  }

  /** The cache after the given uses, from an empty one. */
  ghost function AfterUses(c: Cache, uses: seq<Info>): Cache {
    if uses == [] then Cleared(c) else Touched(AfterUses(c, uses[..|uses| - 1]), uses[|uses| - 1])
  }

  predicate UsedIn(uses: seq<Info>, h: Hash) {
    exists k :: 0 <= k < |uses| && uses[k].hash == h
  }

  /** The cursors used after the last use of `h`. */
  function Since(uses: seq<Info>, h: Hash): set<Hash> {
    if uses == [] then {}
    else
      var last := uses[|uses| - 1].hash;
      if last == h then {} else Since(uses[..|uses| - 1], h) + {last}
  }

  // ------------------------------------------------------------ recency is an order

  lemma UsedInLast(uses: seq<Info>, h: Hash)
    requires uses != []
    ensures UsedIn(uses, h) <==> uses[|uses| - 1].hash == h || UsedIn(uses[..|uses| - 1], h)
  {
    var n := |uses| - 1;
    if UsedIn(uses, h) && uses[n].hash != h {
      var k :| 0 <= k < |uses| && uses[k].hash == h;
      assert uses[..n][k].hash == h;
    }
    if UsedIn(uses[..n], h) {
      var k :| 0 <= k < n && uses[..n][k].hash == h;
      assert uses[k].hash == h;
    }
  }

  /** Of two cursors that were used, exactly one was used after the last use of the other. */
  lemma {:induction false} OneIsLater(uses: seq<Info>, h: Hash, k: Hash)
    requires UsedIn(uses, h) && UsedIn(uses, k) && h != k
    ensures k in Since(uses, h) <==> h !in Since(uses, k)
    decreases |uses|
  {
    var init, last := uses[..|uses| - 1], uses[|uses| - 1].hash;
    UsedInLast(uses, h);
    UsedInLast(uses, k);
    if last == h {
      NotSinceItself(init, h);
    } else if last == k {
    } else {
      OneIsLater(init, h, k);
    }
  }


  lemma {:induction false} NotSinceItself(uses: seq<Info>, h: Hash)
    ensures h !in Since(uses, h)
    decreases |uses|
  {
    if uses != [] {
      NotSinceItself(uses[..|uses| - 1], h);
    }
  }

  lemma {:induction false} SinceWasUsed(uses: seq<Info>, h: Hash, k: Hash)
    requires k in Since(uses, h)
    ensures UsedIn(uses, k)
    decreases |uses|
  {
    UsedInLast(uses, k);
    if uses[|uses| - 1].hash != k {
      SinceWasUsed(uses[..|uses| - 1], h, k);
    }
  }

  /** What came after a later use also came after an earlier one. */
  lemma {:induction false} LaterSinceIsPart(uses: seq<Info>, h: Hash, k: Hash)
    requires k in Since(uses, h)
    ensures Since(uses, k) + {k} <= Since(uses, h)
    decreases |uses|
  {
    var init, last := uses[..|uses| - 1], uses[|uses| - 1].hash;
    if last != k {
      LaterSinceIsPart(init, h, k);
    }
  }

  lemma Smaller(a: set<Hash>, b: set<Hash>)
    requires a <= b
    ensures |a| <= |b|
  {
    assert b == a + (b - a);
  }

  lemma LaterIsNearer(uses: seq<Info>, h: Hash, k: Hash)
    requires k in Since(uses, h)
    ensures |Since(uses, k)| < |Since(uses, h)|
  {
    LaterSinceIsPart(uses, h, k);
    NotSinceItself(uses, k);
    Smaller(Since(uses, k) + {k}, Since(uses, h));
  }

  // ------------------------------------------------------------ the invariant

  /** The entries are the `max` most recently used cursors. */
  ghost predicate MostRecent(c: Cache, uses: seq<Info>) {
    forall h: Hash :: h in c.entries <==> UsedIn(uses, h) && |Since(uses, h)| < c.max
  }

  /** The access indices tell which of two entries was used later. */
  ghost predicate InOrderOfUse(c: Cache, uses: seq<Info>) {
    forall h, k :: h in c.entries && k in c.entries && h != k ==>
      (c.entries[h].access < c.entries[k].access <==> k in Since(uses, h))
  }

  lemma SinceStep(uses: seq<Info>, x: Info, h: Hash)
    ensures Since(uses + [x], h) == if x.hash == h then {} else Since(uses, h) + {x.hash}
    ensures UsedIn(uses + [x], h) <==> x.hash == h || UsedIn(uses, h)
  {
    assert (uses + [x])[..|uses|] == uses;
    UsedInLast(uses + [x], h);
  }

  /** A hit moves no other cursor across the limit. */
  lemma HitMovesNone(uses: seq<Info>, max: nat, x: Hash, h: Hash)
    requires UsedIn(uses, x) && |Since(uses, x)| < max && UsedIn(uses, h) && h != x
    ensures |Since(uses, h)| < max <==> |Since(uses, h) + {x}| < max
  {
    if x in Since(uses, h) {
      assert Since(uses, h) + {x} == Since(uses, h);
    } else {
      OneIsLater(uses, h, x);
      LaterIsNearer(uses, x, h);
      assert |Since(uses, h) + {x}| == |Since(uses, h)| + 1;
    }
  }

  lemma HitKeeps(c: Cache, uses: seq<Info>, x: Info)
    requires CacheOk(c) && MostRecent(c, uses) && InOrderOfUse(c, uses) && x.hash in c.entries
    ensures MostRecent(Used(c, x.hash), uses + [x]) && InOrderOfUse(Used(c, x.hash), uses + [x])
  {
    var d := Used(c, x.hash);
    forall h: Hash
      ensures h in d.entries <==> UsedIn(uses + [x], h) && |Since(uses + [x], h)| < d.max
    {
      SinceStep(uses, x, h);
      if h != x.hash && UsedIn(uses, h) {
        HitMovesNone(uses, c.max, x.hash, h);
      }
      hide UsedIn, Since;
    }
    OrderAfter(c, uses, x, d);
  }

  /** The newest use is later than all others, and leaves their order alone. */
  lemma OrderAfter(c: Cache, uses: seq<Info>, x: Info, d: Cache)
    requires CacheOk(c) && InOrderOfUse(c, uses)
    requires x.hash in d.entries ==> d.entries[x.hash].access == c.next
    requires forall h :: h in d.entries && h != x.hash ==>
               h in c.entries && d.entries[h].access == c.entries[h].access
    ensures InOrderOfUse(d, uses + [x])
  {
    forall h, k | h in d.entries && k in d.entries && h != k
      ensures d.entries[h].access < d.entries[k].access <==> k in Since(uses + [x], h)
    {
      SinceStep(uses, x, h);
      hide UsedIn, Since;
    }
  }

  /** Whatever was used after an entry is an entry. */
  lemma LaterIsHeld(c: Cache, uses: seq<Info>, h: Hash)
    requires MostRecent(c, uses) && h in c.entries
    ensures Since(uses, h) <= c.entries.Keys - {h}
  {
    forall k | k in Since(uses, h)
      ensures k in c.entries && k != h
    {
      SinceWasUsed(uses, h, k);
      LaterIsNearer(uses, h, k);
      NotSinceItself(uses, h);
      hide UsedIn, Since;
    }
  }

  /** The oldest entry has all the others after it. */
  lemma OldestHasAllAfter(c: Cache, uses: seq<Info>, o: Hash)
    requires CacheOk(c) && MostRecent(c, uses) && InOrderOfUse(c, uses) && IsOldest(c.entries, o)
    ensures |Since(uses, o)| == |c.entries| - 1
  {
    LaterIsHeld(c, uses, o);
    hide MostRecent, Since;
    forall k | k in c.entries && k != o
      ensures k in Since(uses, o)
    {}
    assert Since(uses, o) == c.entries.Keys - {o};
  }

  /** A miss makes every entry older by one; what is no entry does not become one. */
  lemma MissAges(c: Cache, uses: seq<Info>, x: Hash, h: Hash)
    requires MostRecent(c, uses) && x !in c.entries && h != x
    ensures h in c.entries ==> |Since(uses, h) + {x}| == |Since(uses, h)| + 1
    ensures |Since(uses, h) + {x}| >= |Since(uses, h)|
  {
    Smaller(Since(uses, h), Since(uses, h) + {x});
    if h in c.entries {
      LaterIsHeld(c, uses, h);
      hide UsedIn, Since, MostRecent;
      assert x !in Since(uses, h);
    }
  }

  /** The limit after a miss: the oldest entry goes if the cache was full, and no other does. */
  lemma MissLimit(c: Cache, uses: seq<Info>, h: Hash)
    requires CacheOk(c) && MostRecent(c, uses) && InOrderOfUse(c, uses) && h in c.entries
    ensures |Since(uses, h)| + 1 < c.max <==> !(|c.entries| == c.max && IsOldest(c.entries, h))
  {
    if IsOldest(c.entries, h) {
      OldestHasAllAfter(c, uses, h);
    } else {
      var o := Oldest(c.entries);
      OldestHasAllAfter(c, uses, o);
      assert c.entries[o].access < c.entries[h].access;
      hide MostRecent, Since;
      LaterIsNearer(uses, o, h);
    }
  }

  /** What an addition leaves: everything, unless the cache was full; then all but the oldest. */
  lemma AddedHolds(c: Cache, x: Info, h: Hash)
    requires CacheOk(c) && x.hash !in c.entries
    ensures var d := Added(c, x);
            h in d.entries <==>
              c.max > 0 && (h == x.hash || (h in c.entries && !(|c.entries| == c.max && IsOldest(c.entries, h))))
  {
    AddedIs(c, x);
    WithIndexed(c, x);
    var all := With(c, x);
    if |all| > c.max {
      var o := Oldest(all);
      assert IsOldest(all, o);
      if c.max > 0 {
        assert |c.entries| > 0;
        var e := Oldest(c.entries);
        assert e in all && all[e] == c.entries[e] && all[x.hash].access == c.next;
        assert all[o].access <= all[e].access < c.next;
        assert o != x.hash;
        assert IsOldest(c.entries, o);
      }
    }
  }

  lemma AddedKeepsAccess(c: Cache, x: Info)
    requires CacheOk(c) && x.hash !in c.entries
    ensures var d := Added(c, x);
            && d.max == c.max
            && (x.hash in d.entries ==> d.entries[x.hash].access == c.next)
            && forall h :: h in d.entries && h != x.hash ==>
                 h in c.entries && d.entries[h].access == c.entries[h].access
  {
    AddedIs(c, x);
  }

  lemma MissKeeps(c: Cache, uses: seq<Info>, x: Info)
    requires CacheOk(c) && MostRecent(c, uses) && InOrderOfUse(c, uses) && x.hash !in c.entries
    ensures MostRecent(Added(c, x), uses + [x]) && InOrderOfUse(Added(c, x), uses + [x])
  {
    var d := Added(c, x);
    AddedKeepsAccess(c, x);
    forall h: Hash
      ensures h in d.entries <==> UsedIn(uses + [x], h) && |Since(uses + [x], h)| < d.max
    {
      SinceStep(uses, x, h);
      AddedHolds(c, x, h);
      if h != x.hash {
        MissAges(c, uses, x.hash, h);
        if h in c.entries {
          MissLimit(c, uses, h);
        }
      }
      hide UsedIn, Since, Added, InOrderOfUse;
    }
    OrderAfter(c, uses, x, d);
  }

  lemma {:induction false} UsesKeep(c: Cache, uses: seq<Info>)
    ensures var d := AfterUses(c, uses);
            CacheOk(d) && MostRecent(d, uses) && InOrderOfUse(d, uses) && d.max == c.max
    decreases |uses|
  {
    if uses != [] {
      var init, x := uses[..|uses| - 1], uses[|uses| - 1];
      UsesKeep(c, init);
      var d := AfterUses(c, init);
      assert uses == init + [x];
      hide MostRecent, InOrderOfUse;
      if x.hash in d.entries {
        HitKeeps(d, init, x);
        UsedOk(d, x.hash);
      } else {
        MissKeeps(d, init, x);
        AddedOk(d, x);
        AddedKeepsAccess(d, x);
      }
      hide CacheOk;
    }
  }

  // ------------------------------------------------------------ theorem

  /**
    After any uses the cache holds exactly the cursors that were used and have had fewer than
    `max` others used after them.
   */
  lemma HoldsMostRecent(c: Cache, uses: seq<Info>, h: Hash)
    ensures h in AfterUses(c, uses).entries <==> UsedIn(uses, h) && |Since(uses, h)| < c.max
  {
    UsesKeep(c, uses);
  }
}
