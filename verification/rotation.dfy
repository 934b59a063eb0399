/** The no-repeat track sampler shared by both catalog hooks: a pool of tracks and the mutable set of ids already
    served. A draw picks uniformly among the unplayed tracks; once every id has been served the set is cleared and
    the draw picks from the whole pool. */
module Rotation {
  import opened Seqs

  /** A value of `Math.random()`. */
  predicate IsRandom(r: real)
  {
    0.0 <= r < 1.0
  }

  predicate AllRandom(rs: seq<real>)
  {
    forall i :: 0 <= i < |rs| ==> IsRandom(rs[i])
  }

  /** `Math.floor(Math.random() * n)`: an index into a list of n elements. */
  function Pick(r: real, n: nat): (i: nat)
    requires IsRandom(r) && n > 0
    ensures i < n
  {
    assert 0.0 <= r * n as real < n as real;
    (r * n as real).Floor
  }

  /** The ids of the tracks of a pool. */
  function Ids<T(!new), K>(pool: seq<T>, key: T -> K): set<K>
  {
    set i | 0 <= i < |pool| :: key(pool[i])
  }

  lemma IdsCons<T(!new), K>(t: T, ts: seq<T>, key: T -> K)
    ensures Ids([t] + ts, key) == {key(t)} + Ids(ts, key)
  {
    var l := Ids([t] + ts, key);
    var r := {key(t)} + Ids(ts, key);
    forall k | k in r ensures k in l {
      if k != key(t) {
        var i :| 0 <= i < |ts| && key(ts[i]) == k;
        assert ([t] + ts)[i + 1] == ts[i];
      } else {
        assert ([t] + ts)[0] == t;
      }
    }
    forall k | k in l ensures k in r {
      var i :| 0 <= i < |[t] + ts| && key(([t] + ts)[i]) == k;
      if i > 0 {
        assert ([t] + ts)[i] == ts[i - 1];
      }
    }
  }

  /** A pool whose tracks have pairwise different ids has exactly as many ids as tracks. */
  lemma {:induction false} IdsCard<T(!new), K>(pool: seq<T>, key: T -> K)
    requires forall i, j :: 0 <= i < j < |pool| ==> key(pool[i]) != key(pool[j])
    ensures |Ids(pool, key)| == |pool|
  {
    if pool != [] {
      IdsCard(pool[1..], key);
      assert pool == [pool[0]] + pool[1..];
      IdsCons(pool[0], pool[1..], key);
      assert key(pool[0]) !in Ids(pool[1..], key);
    }
  }

  /** The id of a track of the pool is among the pool's ids. */
  lemma InIds<T(!new), K>(pool: seq<T>, key: T -> K, t: T)
    requires t in pool
    ensures key(t) in Ids(pool, key)
  {
    var i :| 0 <= i < |pool| && pool[i] == t;
  }

  /** The test of the unplayed filter. */
  function NotPlayed<T(!new), K(==)>(played: set<K>, key: T -> K): T -> bool
  {
    t => key(t) !in played
  }

  lemma UnplayedFacts<T(!new), K>(pool: seq<T>, played: set<K>, key: T -> K)
    ensures forall t :: t in Filter(pool, NotPlayed(played, key)) <==> t in pool && key(t) !in played
    ensures Filter(pool, NotPlayed(played, key)) == [] <==> Ids(pool, key) <= played
  {
    var u := Filter(pool, NotPlayed(played, key));
    forall t ensures t in u <==> t in pool && key(t) !in played {
      FilterMembership(pool, NotPlayed(played, key), t);
    }
    if u == [] {
      forall k | k in Ids(pool, key) ensures k in played {
        var i :| 0 <= i < |pool| && key(pool[i]) == k;
        assert pool[i] !in u;
      }
    } else {
      assert u[0] in u;
      InIds(pool, key, u[0]);
    }
  }

  /** `allTracks.filter(track => !playedTrackIds.has(id(track)))`. */
  function Unplayed<T(!new), K(==)>(pool: seq<T>, played: set<K>, key: T -> K): (u: seq<T>)
    ensures forall t :: t in u <==> t in pool && key(t) !in played
    ensures u == [] <==> Ids(pool, key) <= played
  {
    UnplayedFacts(pool, played, key);
    Filter(pool, NotPlayed(played, key))
  }

  /** One draw from a non-empty pool with random value r: the track served and the played set afterwards. */
  function DrawFrom<T(!new), K(==)>(pool: seq<T>, played: set<K>, key: T -> K, r: real): (d: (T, set<K>))
    requires |pool| > 0 && IsRandom(r)
    ensures d.0 in pool && key(d.0) in Ids(pool, key)
    ensures !(Ids(pool, key) <= played) ==> key(d.0) !in played && d.1 == played + {key(d.0)}
    ensures Ids(pool, key) <= played ==> d.1 == {key(d.0)}
  {
    var u := Unplayed(pool, played, key);
    var t := if u == [] then pool[Pick(r, |pool|)] else u[Pick(r, |u|)];
    InIds(pool, key, t);
    (t, if u == [] then {key(t)} else played + {key(t)})
  }

  /** Consecutive draws, one per random value, starting from a played set. */
  function DrawSeq<T(!new), K(==)>(pool: seq<T>, played: set<K>, key: T -> K, rs: seq<real>): (seq<T>, set<K>)
    requires |pool| > 0 && AllRandom(rs)
    decreases |rs|
  {
    if rs == [] then ([], played)
    else
      var d := DrawFrom(pool, played, key, rs[0]);
      var rest := DrawSeq(pool, d.1, key, rs[1..]);
      ([d.0] + rest.0, rest.1)
  }

  /** ts were served from the pool starting from played, each id at most once and none already played, and p is
      the played set that results. */
  ghost predicate ServedFresh<T(!new), K>(pool: seq<T>, played: set<K>, key: T -> K, ts: seq<T>, p: set<K>)
  {
    && (forall i :: 0 <= i < |ts| ==> ts[i] in pool && key(ts[i]) !in played)
    && (forall i, j :: 0 <= i < j < |ts| ==> key(ts[i]) != key(ts[j]))
    && p == played + Ids(ts, key)
  }

  /** Serving a fresh track in front of a fresh run gives a fresh run. */
  lemma ServedFreshCons<T(!new), K>(pool: seq<T>, played: set<K>, key: T -> K, t: T, rest: seq<T>, p: set<K>)
    requires t in pool && key(t) !in played
    requires ServedFresh(pool, played + {key(t)}, key, rest, p)
    ensures ServedFresh(pool, played, key, [t] + rest, p)
  {
    var ts := [t] + rest;
    IdsCons(t, rest, key);
    forall i | 0 <= i < |ts|
      ensures ts[i] in pool && key(ts[i]) !in played
    {
      if i > 0 {
        assert ts[i] == rest[i - 1];
      }
    }
    forall i, j | 0 <= i < j < |ts|
      ensures key(ts[i]) != key(ts[j])
    {
      assert ts[j] == rest[j - 1];
      if i > 0 {
        assert ts[i] == rest[i - 1];
      }
    }
  }

  /** While unplayed ids remain, draws never repeat an id, never serve a played id, and the played set grows by
      exactly the ids served. */
  lemma {:induction false} NoRepeatBeforeExhaustion<T(!new), K>(pool: seq<T>, played: set<K>, key: T -> K, rs: seq<real>)
    requires |pool| > 0 && AllRandom(rs)
    requires |rs| <= |Ids(pool, key) - played|
    ensures |DrawSeq(pool, played, key, rs).0| == |rs|
    ensures ServedFresh(pool, played, key, DrawSeq(pool, played, key, rs).0, DrawSeq(pool, played, key, rs).1)
    decreases |rs|
  {
    if rs == [] {
      assert Ids([], key) == {};
    } else {
      var d := DrawFrom(pool, played, key, rs[0]);
      var k := key(d.0);
      assert Ids(pool, key) - played != {};
      assert d.1 == played + {k} && k !in played;
      assert Ids(pool, key) - d.1 == (Ids(pool, key) - played) - {k};
      NoRepeatBeforeExhaustion(pool, d.1, key, rs[1..]);
      var rest := DrawSeq(pool, d.1, key, rs[1..]);
      assert ServedFresh(pool, d.1, key, rest.0, rest.1);
      var ts := [d.0] + rest.0;
      assert DrawSeq(pool, played, key, rs) == (ts, rest.1);
      ServedFreshCons(pool, played, key, d.0, rest.0, rest.1);
      assert ServedFresh(pool, played, key, ts, rest.1);
    }
  }

  /** Starting from a played set that holds none of the pool's ids (empty, or left over from another pool), as
      many draws as the pool has tracks (with distinct ids) serve every track exactly once: the served sequence is
      a permutation of the pool, and every id of the pool is then played. */
  lemma FullRotation<T(!new), K>(pool: seq<T>, played: set<K>, key: T -> K, rs: seq<real>)
    requires |pool| > 0 && AllRandom(rs) && |rs| == |pool|
    requires forall i, j :: 0 <= i < j < |pool| ==> key(pool[i]) != key(pool[j])
    requires Ids(pool, key) !! played
    ensures multiset(DrawSeq(pool, played, key, rs).0) == multiset(pool)
    ensures DrawSeq(pool, played, key, rs).1 == played + Ids(pool, key)
  {
    IdsCard(pool, key);
    assert Ids(pool, key) - played == Ids(pool, key);
    NoRepeatBeforeExhaustion(pool, played, key, rs);
    var (ts, p) := DrawSeq(pool, played, key, rs);
    assert ServedFresh(pool, played, key, ts, p);
    FreshRunCoversPool(pool, played, key, ts, p);
  }

  /** A fresh run that is as long as a pool with distinct ids is a permutation of it. */
  lemma FreshRunCoversPool<T(!new), K>(pool: seq<T>, played: set<K>, key: T -> K, ts: seq<T>, p: set<K>)
    requires forall i, j :: 0 <= i < j < |pool| ==> key(pool[i]) != key(pool[j])
    requires ServedFresh(pool, played, key, ts, p) && |ts| == |pool|
    ensures multiset(ts) == multiset(pool) && p == played + Ids(pool, key)
  {
    assert Distinct(ts) && Distinct(pool);
    DistinctCard(ts);
    DistinctCard(pool);
    assert Elems(ts) <= Elems(pool);
    assert |Elems(pool)| == |Elems(ts)| + |Elems(pool) - Elems(ts)|;
    SameElemsPermutation(ts, pool);
    IdsCard(ts, key);
    IdsCard(pool, key);
    assert Ids(ts, key) <= Ids(pool, key) by {
      forall k | k in Ids(ts, key) ensures k in Ids(pool, key) {
        var i :| 0 <= i < |ts| && key(ts[i]) == k;
        InIds(pool, key, ts[i]);
      }
    }
    assert |Ids(pool, key)| == |Ids(ts, key)| + |Ids(pool, key) - Ids(ts, key)|;
    assert Ids(ts, key) == Ids(pool, key);
  }

  /** The pool and the played set of one catalog context (the `allTracks` state and the `playedTrackIds` ref).
      Nothing ties the two together: the played set may hold ids of an earlier pool. */
  class Sampler<T(==, !new), K(==)> {
    const key: T -> K
    var pool: seq<T>
    var played: set<K>

    constructor (key: T -> K)
      ensures this.key == key && pool == [] && played == {}
    {
      this.key := key;
      pool := [];
      played := {};
    }

    /** Stores a freshly fetched pool; the played set is kept. */
    method Load(tracks: seq<T>)
      modifies this`pool
      ensures pool == tracks && played == old(played)
    {
      pool := tracks;
    }

    /** `playedTrackIds.current.clear()`. */
    method ClearPlayed()
      modifies this`played
      ensures played == {} && pool == old(pool)
    {
      played := {};
    }

    /** `setAllTracks([])`: the pool is emptied and the played set kept. */
    method DropPool()
      modifies this`pool
      ensures pool == [] && played == old(played)
    {
      pool := [];
    }

    /** Clears both the played set and the pool. */
    method Reset()
      modifies this
      ensures played == {} && pool == []
    {
      played := {};
      pool := [];
    }

    /** Serves one track: from the unplayed ones if any, else from the whole pool after clearing the played set.
        The served id is always recorded. */
    method Draw(r: real) returns (t: T)
      requires |pool| > 0 && IsRandom(r)
      modifies this`played
      ensures pool == old(pool)
      ensures (t, played) == DrawFrom(pool, old(played), key, r)
    {
      var unplayed := Unplayed(pool, played, key);
      if |unplayed| == 0 {
        played := {};
        t := pool[Pick(r, |pool|)];
        assert {} + {key(t)} == {key(t)};
      } else {
        t := unplayed[Pick(r, |unplayed|)];
      }
      played := played + {key(t)};
    }
  }
}
