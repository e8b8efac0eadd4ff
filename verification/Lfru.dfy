/**
 * The expert-cache simulation (tools/dsv41/cache_sim.py): an LFRU cache that
 * evicts the least used key (the least recent of those), replayed over a
 * recorded stream of accesses.
 *
 * What is proved of it is that it is a stack algorithm: with more slots the
 * cache always holds at least what it held with fewer, so hits never fall.
 */
module Lfru {
  import opened Options

  /** The source's `freq` and `last`: how often each key was accessed, and the clock (from 1) at its last access. */
  datatype Usage<K(==)> = Usage(freq: map<K, nat>, last: map<K, nat>)

  function Count<K>(u: Usage<K>, key: K, clock: nat): Usage<K> {
    Usage(u.freq[key := (if key in u.freq then u.freq[key] else 0) + 1], u.last[key := clock])
  }

  ghost predicate Counts<K>(u: Usage<K>, keys: set<K>) {
    keys <= u.freq.Keys && keys <= u.last.Keys
  }

  /** The usage after the accesses `a`. */
  function Used<K>(a: seq<K>): Usage<K> {
    if a == [] then Usage(map[], map[]) else Count(Used(a[..|a| - 1]), a[|a| - 1], |a|)
  }

  /** Whether `j` goes no later than `k`: by use, then by how recent. */
  ghost predicate NoLater<K>(u: Usage<K>, j: K, k: K)
    requires Counts(u, {j, k})
  {
    u.freq[j] < u.freq[k] || (u.freq[j] == u.freq[k] && u.last[j] <= u.last[k])
  }

  /** A key of `cache` that goes first. */
  ghost predicate IsVictim<K>(u: Usage<K>, cache: set<K>, v: K)
    requires Counts(u, cache)
  {
    v in cache && forall k :: k in cache ==> NoLater(u, v, k)
  }

  lemma {:induction false} VictimExists<K>(u: Usage<K>, cache: set<K>)
    requires cache != {} && Counts(u, cache)
    ensures exists v :: IsVictim(u, cache, v)
    decreases cache
  {
    var c :| c in cache;
    var rest := cache - {c};
    assert forall k :: k in cache ==> k == c || k in rest;
    if rest == {} {
      assert IsVictim(u, cache, c);
    } else {
      VictimExists(u, rest);
      var v :| IsVictim(u, rest, v);
      assert IsVictim(u, cache, if NoLater(u, c, v) then c else v);
    }
  }

  ghost function Victim<K>(u: Usage<K>, cache: set<K>): (v: K)
    requires cache != {} && Counts(u, cache)
    ensures IsVictim(u, cache, v)
  {
    VictimExists(u, cache);
    var v :| IsVictim(u, cache, v);
    v
  }

  /** The cache `c` once `x` is accessed, `u` being the usage with that access counted. */
  ghost function After<K>(u: Usage<K>, c: set<K>, x: K, slots: nat): (r: set<K>)
    requires slots >= 1 && |c| <= slots && Counts(u, c)
    ensures |r| <= slots
    ensures r <= c + {x}
    ensures x in r
  {
    if x in c then c
    else if |c| < slots then c + {x}
    else c - {Victim(u, c)} + {x}
  }

  /** What the cache holds after the accesses `a`, with `slots` slots. */
  ghost function Cache<K>(a: seq<K>, slots: nat): (c: set<K>)
    requires slots >= 1
    ensures Counts(Used(a), c)
    ensures |c| <= slots
  {
    if a == [] then {} else After(Used(a), Cache(a[..|a| - 1], slots), a[|a| - 1], slots)
  }

  /** The accesses of `a` that find their key in the cache. */
  ghost function Hits<K>(a: seq<K>, slots: nat): nat
    requires slots >= 1
  {
    if a == [] then 0
    else
      var p := a[..|a| - 1];
      Hits(p, slots) + if a[|a| - 1] in Cache(p, slots) then 1 else 0
  }

  /** The keys of `a`. */
  ghost function Keys<K>(a: seq<K>): set<K> {
    set k | k in a
  }

  // ---- The order of eviction -------------------------------------------------

  /** When a key of `a` was last accessed. */
  ghost predicate LastAt<K>(a: seq<K>, key: K, clock: nat) {
    1 <= clock <= |a| && a[clock - 1] == key && forall i :: clock <= i < |a| ==> a[i] != key
  }

  /** What `Used` records: each key's number of accesses, and its last one. */
  lemma {:induction false} UsedIsTheHistory<K>(a: seq<K>)
    ensures Used(a).freq.Keys == Used(a).last.Keys == Keys(a)
    ensures forall k :: k in Used(a).freq ==> Used(a).freq[k] == multiset(a)[k]
    ensures forall k :: k in Used(a).last ==> LastAt(a, k, Used(a).last[k])
  {
    if a != [] {
      var p, x := a[..|a| - 1], a[|a| - 1];
      UsedIsTheHistory(p);
      assert a == p + [x];
      assert Keys(a) == Keys(p) + {x};
      assert x !in Used(p).freq ==> x !in p;
      hide Keys;
      LastOfMore(p, x);
    }
  }

  lemma LastOfMore<K>(p: seq<K>, x: K)
    ensures LastAt(p + [x], x, |p| + 1)
    ensures forall k, clock: nat :: LastAt(p, k, clock) && k != x ==> LastAt(p + [x], k, clock)
  {
  }

  /** No two keys were last accessed at the same clock. */
  ghost predicate Distinct<K>(u: Usage<K>) {
    forall j, k :: j in u.last && k in u.last && u.last[j] == u.last[k] ==> j == k
  }

  lemma ClocksAreDistinct<K>(a: seq<K>)
    ensures Distinct(Used(a))
  {
    UsedIsTheHistory(a);
    hide Used;
    assert forall j, k, c: nat :: LastAt(a, j, c) && LastAt(a, k, c) ==> j == k;
  }

  /** So which key goes is not left to the order of the set. */
  lemma VictimIsUnique<K>(u: Usage<K>, cache: set<K>, v: K, w: K)
    requires Counts(u, cache) && Distinct(u)
    requires IsVictim(u, cache, v) && IsVictim(u, cache, w)
    ensures v == w
  {
    assert NoLater(u, v, w) && NoLater(u, w, v);
  }

  lemma TheVictim<K>(a: seq<K>, cache: set<K>, v: K)
    requires Counts(Used(a), cache) && IsVictim(Used(a), cache, v)
    ensures cache != {} && v == Victim(Used(a), cache)
  {
    ClocksAreDistinct(a);
    hide Used;
    VictimIsUnique(Used(a), cache, v, Victim(Used(a), cache));
  }

  // ---- The cache as a stack ----------------------------------------------------

  /** The cache with `s` slots beside the one with one more: the same until it is full, then a subset by one key at most. */
  ghost predicate Beside<K>(small: set<K>, big: set<K>, s: nat) {
    && small <= big
    && (|small| < s ==> small == big)
    && |small| <= |big| <= |small| + 1
  }

  lemma {:induction false} OneMoreSlot<K>(a: seq<K>, s: nat)
    requires s >= 1
    ensures Beside(Cache(a, s), Cache(a, s + 1), s)
  {
    if a != [] {
      var p := a[..|a| - 1];
      OneMoreSlot(p, s);
      ClocksAreDistinct(a);
      BesideAfter(Used(a), Cache(p, s), Cache(p, s + 1), a[|a| - 1], s);
    }
  }

  lemma BesideAfter<K>(u: Usage<K>, small: set<K>, big: set<K>, x: K, s: nat)
    requires s >= 1 && |small| <= s && |big| <= s + 1
    requires Counts(u, big) && Distinct(u) && Beside(small, big, s)
    ensures Beside(After(u, small, x, s), After(u, big, x, s + 1), s)
  {
    if x !in small && |small| == s {
      assert |small - {Victim(u, small)} + {x}| == s;
      if x !in big {
        if |big| == s {
          SubsetOfSameSize(small, big);
        } else {
          SameVictim(u, small, big);
          assert |big - {Victim(u, big)} + {x}| == s + 1;
        }
      }
    }
  }

  /** Both full and neither holding the key: the larger lets go the smaller's victim, or the key only it holds. */
  lemma SameVictim<K>(u: Usage<K>, small: set<K>, big: set<K>)
    requires Counts(u, big) && Distinct(u) && small <= big && small != {} && |big| == |small| + 1
    ensures Victim(u, big) == Victim(u, small) || Victim(u, big) !in small
  {
    if Victim(u, big) in small {
      VictimIsUnique(u, small, Victim(u, big), Victim(u, small));
    }
  }

  lemma SubsetOfSameSize<K>(s: set<K>, t: set<K>)
    requires s <= t && |s| == |t|
    ensures s == t
  {
    assert t == s + (t - s);
    assert |t| == |s| + |t - s|;
  }

  /** Inclusion: the cache with fewer slots is always part of the cache with more. */
  lemma {:induction false} Inclusion<K>(a: seq<K>, s: nat, t: nat)
    requires 1 <= s <= t
    ensures Cache(a, s) <= Cache(a, t)
    decreases t - s
  {
    hide Cache, Used, Count;
    if s < t {
      OneMoreSlot(a, s);
      Inclusion(a, s + 1, t);
    }
  }

  /** No anomaly: more slots never mean fewer hits. */
  lemma {:induction false} HitsNeverFall<K>(a: seq<K>, s: nat, t: nat)
    requires 1 <= s <= t
    ensures Hits(a, s) <= Hits(a, t)
  {
    if a != [] {
      HitsNeverFall(a[..|a| - 1], s, t);
      Inclusion(a[..|a| - 1], s, t);
    }
  }

  /** With a slot for every key nothing goes: each key misses once, and only once. */
  lemma {:induction false} AmpleSlots<K>(a: seq<K>, s: nat)
    requires s >= 1 && s >= |Keys(a)|
    ensures Cache(a, s) == Keys(a)
    ensures Hits(a, s) == |a| - |Keys(a)|
  {
    if a == [] {
      assert Keys(a) == {};
    } else {
      var p, x := a[..|a| - 1], a[|a| - 1];
      assert a == p + [x];
      assert Keys(a) == Keys(p) + {x};
      if x in Keys(p) {
        assert Keys(a) == Keys(p);
      }
      AmpleSlots(p, s);
    }
  }

  /** What the warm rate divides: the hits after a prefix, of the accesses after it. */
  lemma {:induction false} WarmHits<K>(a: seq<K>, s: nat, n: nat)
    requires s >= 1 && n <= |a|
    ensures 0 <= Hits(a, s) - Hits(a[..n], s) <= |a| - n
  {
    if n == |a| {
      assert a[..n] == a;
    } else {
      var p := a[..|a| - 1];
      WarmHits(p, s, n);
      assert p[..n] == a[..n];
    }
  }

  // ---- The simulation --------------------------------------------------------------

  /**
   * `lfru`: the hits of the accesses, or None where the source raises (with no
   * slot to fill, the first access asks for the least of no keys).
   */
  method Lfru<K(==)>(accesses: seq<K>, slots: int) returns (r: Option<nat>)
    ensures r == if slots <= 0 && accesses != [] then None
                 else if accesses == [] then Some(0)
                 else Some(Hits(accesses, slots))
  {
    hide IsVictim, NoLater;
    var usage, cache: set<K>, hits, clock := Usage(map[], map[]), {}, 0, 0;
    assert accesses[..0] == [];
    for i := 0 to |accesses|
      invariant clock == i
      invariant i > 0 ==> slots >= 1
      invariant slots >= 1 ==> cache == Cache(accesses[..i], slots) && hits == Hits(accesses[..i], slots)
      invariant slots < 1 ==> cache == {} && hits == 0
      invariant usage == Used(accesses[..i])
    {
      var key := accesses[i];
      ghost var seen := accesses[..i + 1];
      assert seen[..|seen| - 1] == accesses[..i];
      clock := clock + 1;
      usage := Count(usage, key, clock);
      if key in cache {
        hits := hits + 1;
        continue;
      }
      if |cache| >= slots {
        if cache == {} { return None; }
        var victim := Least(usage, cache);
        TheVictim(seen, cache, victim);
        cache := cache - {victim};
      }
      cache := cache + {key};
    }
    assert accesses[..|accesses|] == accesses;
    return Some(hits);
  }

  /** `min(cache, key=...)`: the first to go, by looking at each key once. */
  method Least<K(==)>(u: Usage<K>, cache: set<K>) returns (v: K)
    requires cache != {} && Counts(u, cache)
    ensures IsVictim(u, cache, v)
  {
    v :| v in cache;
    var rest := cache - {v};
    while rest != {}
      invariant rest <= cache
      invariant v in cache - rest
      invariant forall k :: k in cache - rest ==> NoLater(u, v, k)
      decreases rest
    {
      var k :| k in rest;
      assert forall j :: j in cache - (rest - {k}) ==> j == k || j in cache - rest;
      if u.freq[k] < u.freq[v] || (u.freq[k] == u.freq[v] && u.last[k] < u.last[v]) {
        v := k;
      }
      rest := rest - {k};
    }
  }

  /** Whether `rate` is `part` of `whole`. */
  ghost predicate IsRate(rate: real, part: int, whole: int) {
    0.0 <= rate <= 1.0 && rate * whole as real == part as real
  }

  /** One GPU's warm hit rate: the hits after the first half, of the accesses after it (None where the source raises). */
  method WarmRate<K(==)>(accesses: seq<K>, slots: int) returns (r: Option<real>)
    ensures r.None? <==> accesses == [] || slots <= 0
    ensures r.Some? ==>
      var half := |accesses| / 2;
      IsRate(r.value, Hits(accesses, slots) - Hits(accesses[..half], slots), |accesses| - half)
  {
    hide Cache, Hits, IsRate;
    var half := |accesses| / 2;
    var h1 := Lfru(accesses[..half], slots);
    var all := Lfru(accesses, slots);
    if h1.None? || all.None? || |accesses| == half { return None; }
    WarmHits(accesses, slots, half);
    assert half == 0 ==> accesses[..half] == [];
    NoHitsYet<K>(slots);
    var rate := Rate(all.value - h1.value, |accesses| - half);
    r := Some(rate);
  }

  lemma NoHitsYet<K>(s: nat)
    requires s >= 1
    ensures Hits<K>([], s) == 0
  {
  }

  method Rate(part: int, whole: int) returns (rate: real)
    requires 0 <= part <= whole && whole > 0
    ensures IsRate(rate, part, whole)
  {
    var p, w := part as real, whole as real;
    rate := p / w;
    assert (1.0 - rate) * w == w - p;
  }
}
