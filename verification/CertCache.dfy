/** The verifier's certificate cache and its memory of unknown key ids: two insertion-ordered maps bounded by eviction
  * from the front. Between two awaits the runtime runs one piece at a time, so any interleaving of lookups is a
  * sequence of the pieces below. */
module CertCache {

  import opened Wrappers
  import opened Sets

  const MAX_KEYS := 32
  const KEY_TTL_MS := 6 * 60 * 60 * 1000
  const MISS_TTL_MS := 60 * 1000

  type Key = nat

  /** One entry of an insertion-ordered map. */
  datatype Entry = Entry(kid: string, key: Key, at: int)

  datatype Miss = Miss(kid: string, at: int)

  /** A published certificate as the import loop sees it; `usable` is an RSA key with all its parts. */
  datatype Cert = Cert(kid: Option<string>, usable: bool, key: Key)

  // ----- Ordered maps as lists -----

  function Without(cache: seq<Entry>, kid: string): seq<Entry> {
    if |cache| == 0 then []
    else if cache[0].kid == kid then Without(cache[1..], kid)
    else [cache[0]] + Without(cache[1..], kid)
  }

  function Live(cache: seq<Entry>, now: int): seq<Entry> {
    if |cache| == 0 then []
    else if now - cache[0].at > KEY_TTL_MS then Live(cache[1..], now)
    else [cache[0]] + Live(cache[1..], now)
  }

  function Find(cache: seq<Entry>, kid: string): (found: Option<Entry>)
    ensures found.Some? ==> found.value in cache && found.value.kid == kid
    ensures found.None? <==> forall e :: e in cache ==> e.kid != kid
  {
    if |cache| == 0 then None
    else if cache[0].kid == kid then Some(cache[0])
    else Find(cache[1..], kid)
  }

  /** The most recent entries that fit. */
  function Newest<T>(list: seq<T>, n: nat): seq<T> {
    if |list| <= n then list else list[|list| - n..]
  }

  /** Using a kid makes it the newest; the oldest entry falls out when the bound is passed. */
  function Put(cache: seq<Entry>, entry: Entry): seq<Entry> {
    Newest(Without(cache, entry.kid) + [entry], MAX_KEYS)
  }

  function MissIndex(misses: seq<Miss>, kid: string): (i: nat)
    ensures i <= |misses|
    ensures i < |misses| ==> misses[i].kid == kid
    ensures forall j :: 0 <= j < i ==> misses[j].kid != kid
  {
    if |misses| == 0 || misses[0].kid == kid then 0 else 1 + MissIndex(misses[1..], kid)
  }

  function Forget(misses: seq<Miss>, kid: string): seq<Miss> {
    if |misses| == 0 then []
    else if misses[0].kid == kid then Forget(misses[1..], kid)
    else [misses[0]] + Forget(misses[1..], kid)
  }

  function LiveMisses(misses: seq<Miss>, now: int): seq<Miss> {
    if |misses| == 0 then []
    else if now - misses[0].at >= MISS_TTL_MS then LiveMisses(misses[1..], now)
    else [misses[0]] + LiveMisses(misses[1..], now)
  }

  /** Setting a key that is already in the map keeps its place; a new one goes to the end, and overflow drops the head. */
  function Remember(misses: seq<Miss>, kid: string, at: int): seq<Miss> {
    var i := MissIndex(misses, kid);
    var list := if i < |misses| then misses[i := Miss(kid, at)] else misses + [Miss(kid, at)];
    if |list| > MAX_KEYS then list[1..] else list
  }

  // ----- Any sequence of pieces -----

  datatype State = State(cache: seq<Entry>, misses: seq<Miss>)

  /** `Refresh` is the hit path: it moves the entry it found to the end. */
  datatype Piece =
    | Sweep(now: int)
    | Refresh(kid: string)
    | Import(kid: string, key: Key, seen: int)
    | SweepMisses(now: int)
    | ForgetMiss(kid: string)
    | RememberMiss(kid: string, seen: int)

  const INITIAL := State([], [])

  function Step(s: State, p: Piece): State {
    match p
    case Sweep(now) => s.(cache := Live(s.cache, now))
    case Refresh(kid) =>
      (match Find(s.cache, kid)
       case None => s
       case Some(hit) => s.(cache := Without(s.cache, kid) + [hit]))
    case Import(kid, key, seen) => s.(cache := Put(s.cache, Entry(kid, key, seen)))
    case SweepMisses(now) => s.(misses := LiveMisses(s.misses, now))
    case ForgetMiss(kid) => s.(misses := Forget(s.misses, kid))
    case RememberMiss(kid, seen) => s.(misses := Remember(s.misses, kid, seen))
  }

  function Run(s: State, ps: seq<Piece>): State
    decreases |ps|
  {
    if |ps| == 0 then s else Run(Step(s, ps[0]), ps[1..])
  }

  /** Every import a run made. */
  function Imports(ps: seq<Piece>): set<Entry> {
    set p | p in ps && p.Import? :: Entry(p.kid, p.key, p.seen)
  }

  predicate DistinctKids(cache: seq<Entry>) {
    forall i, j :: 0 <= i < j < |cache| ==> cache[i].kid != cache[j].kid
  }

  predicate DistinctMisses(misses: seq<Miss>) {
    forall i, j :: 0 <= i < j < |misses| ==> misses[i].kid != misses[j].kid
  }

  predicate Bounded(s: State) {
    |s.cache| <= MAX_KEYS && |s.misses| <= MAX_KEYS && DistinctKids(s.cache) && DistinctMisses(s.misses)
  }

  lemma {:induction false} WithoutFacts(cache: seq<Entry>, kid: string)
    requires DistinctKids(cache)
    ensures DistinctKids(Without(cache, kid))
    ensures forall e :: e in Without(cache, kid) <==> e in cache && e.kid != kid
    ensures |Without(cache, kid)| == if Find(cache, kid).Some? then |cache| - 1 else |cache|
    decreases |cache|
  {
    if |cache| > 0 {
      WithoutFacts(cache[1..], kid);
      if cache[0].kid == kid {
        assert Find(cache[1..], kid).None?;
      }
    }
  }

  lemma {:induction false} LiveFacts(cache: seq<Entry>, now: int)
    requires DistinctKids(cache)
    ensures DistinctKids(Live(cache, now)) && |Live(cache, now)| <= |cache|
    ensures forall e :: e in Live(cache, now) <==> e in cache && now - e.at <= KEY_TTL_MS
    decreases |cache|
  {
    if |cache| > 0 {
      LiveFacts(cache[1..], now);
    }
  }

  lemma PutFacts(cache: seq<Entry>, entry: Entry)
    requires DistinctKids(cache)
    ensures var put := Put(cache, entry);
      && DistinctKids(put) && |put| <= MAX_KEYS
      && Find(put, entry.kid) == Some(entry)
      && forall e :: e in put ==> e in cache || e == entry
  {
    WithoutFacts(cache, entry.kid);
    var all, put := Without(cache, entry.kid) + [entry], Put(cache, entry);
    assert put[|put| - 1] == entry;
    assert entry in put;
    assert DistinctKids(all);
  }

  lemma {:induction false} ForgetFacts(misses: seq<Miss>, kid: string)
    requires DistinctMisses(misses)
    ensures DistinctMisses(Forget(misses, kid)) && |Forget(misses, kid)| <= |misses|
    ensures forall m :: m in Forget(misses, kid) <==> m in misses && m.kid != kid
    decreases |misses|
  {
    if |misses| > 0 {
      ForgetFacts(misses[1..], kid);
    }
  }

  lemma {:induction false} LiveMissesFacts(misses: seq<Miss>, now: int)
    requires DistinctMisses(misses)
    ensures DistinctMisses(LiveMisses(misses, now)) && |LiveMisses(misses, now)| <= |misses|
    ensures forall m :: m in LiveMisses(misses, now) <==> m in misses && now - m.at < MISS_TTL_MS
    decreases |misses|
  {
    if |misses| > 0 {
      LiveMissesFacts(misses[1..], now);
    }
  }

  lemma StepKeepsBounds(s: State, p: Piece)
    requires Bounded(s)
    ensures Bounded(Step(s, p))
    ensures forall e :: e in Step(s, p).cache ==> e in s.cache || (p.Import? && e == Entry(p.kid, p.key, p.seen))
  {
    match p
    case Sweep(now) => LiveFacts(s.cache, now);
    case Refresh(kid) => WithoutFacts(s.cache, kid);
    case Import(kid, key, seen) => PutFacts(s.cache, Entry(kid, key, seen));
    case SweepMisses(now) => LiveMissesFacts(s.misses, now);
    case ForgetMiss(kid) => ForgetFacts(s.misses, kid);
    case RememberMiss(kid, seen) =>
  }

  /** However lookups interleave, both maps stay at 32 entries or fewer with distinct kids, and every cached key was
    * imported for that very kid at that time. */
  lemma {:induction false} CachesStayBounded(s: State, ps: seq<Piece>)
    requires Bounded(s)
    ensures Bounded(Run(s, ps))
    ensures forall e :: e in Run(s, ps).cache ==> e in s.cache || e in Imports(ps)
    decreases |ps|
  {
    if |ps| > 0 {
      StepKeepsBounds(s, ps[0]);
      CachesStayBounded(Step(s, ps[0]), ps[1..]);
      assert ps == [ps[0]] + ps[1..];
      assert ps[0].Import? ==> Entry(ps[0].kid, ps[0].key, ps[0].seen) in Imports(ps);
      assert Imports(ps[1..]) <= Imports(ps);
    }
  }

  /** A hit right after a sweep, at any point of any run, returns a key imported for that kid no more than six hours ago. */
  lemma HitIsFresh(ps: seq<Piece>, now: int, kid: string)
    ensures var hit := Find(Step(Run(INITIAL, ps), Sweep(now)).cache, kid);
      hit.Some? ==> hit.value in Imports(ps) && hit.value.kid == kid && now - hit.value.at <= KEY_TTL_MS
  {
    CachesStayBounded(INITIAL, ps);
    LiveFacts(Run(INITIAL, ps).cache, now);
  }

  // ----- Recency -----

  /** The entry a piece uses: the one it imports, or the one it hits. */
  function Use(s: State, p: Piece): Option<Entry> {
    match p
    case Import(kid, key, seen) => Some(Entry(kid, key, seen))
    case Refresh(kid) => Find(s.cache, kid)
    case _ => None
  }

  function UsedKid(s: State, p: Piece): set<string> {
    if Use(s, p).Some? then {Use(s, p).value.kid} else {}
  }

  /** The kids used in a run. */
  function UsedKids(s: State, ps: seq<Piece>): set<string>
    decreases |ps|
  {
    if |ps| == 0 then {} else UsedKid(s, ps[0]) + UsedKids(Step(s, ps[0]), ps[1..])
  }

  /** Every live kid ever used, newest last, without any bound: sweeps apply to it, evictions do not. */
  function Listed(s: State, list: seq<Entry>, p: Piece): seq<Entry> {
    if p.Sweep? then Live(list, p.now)
    else if Use(s, p).Some? then Without(list, Use(s, p).value.kid) + [Use(s, p).value]
    else list
  }

  function AllListed(s: State, list: seq<Entry>, ps: seq<Piece>): seq<Entry>
    decreases |ps|
  {
    if |ps| == 0 then list else AllListed(Step(s, ps[0]), Listed(s, list, ps[0]), ps[1..])
  }

  /** No sweep of the run drops anything. */
  predicate Quiet(s: State, ps: seq<Piece>)
    decreases |ps|
  {
    |ps| == 0 || ((ps[0].Sweep? ==> Live(s.cache, ps[0].now) == s.cache) && Quiet(Step(s, ps[0]), ps[1..]))
  }

  /** No sweep of the run finds the entry expired. */
  predicate NeverExpired(ps: seq<Piece>, e: Entry) {
    forall i :: 0 <= i < |ps| && ps[i].Sweep? ==> ps[i].now - e.at <= KEY_TTL_MS
  }

  lemma {:induction false} WithoutConcat(x: seq<Entry>, y: seq<Entry>, kid: string)
    ensures Without(x + y, kid) == Without(x, kid) + Without(y, kid)
    decreases |x|
  {
    if |x| == 0 {
      assert x + y == y;
    } else {
      assert (x + y)[1..] == x[1..] + y;
      WithoutConcat(x[1..], y, kid);
    }
  }

  lemma {:induction false} LiveConcat(x: seq<Entry>, y: seq<Entry>, now: int)
    ensures Live(x + y, now) == Live(x, now) + Live(y, now)
    decreases |x|
  {
    if |x| == 0 {
      assert x + y == y;
    } else {
      assert (x + y)[1..] == x[1..] + y;
      LiveConcat(x[1..], y, now);
    }
  }

  lemma UseIsDistinct(list: seq<Entry>, entry: Entry)
    requires DistinctKids(list)
    ensures DistinctKids(Without(list, entry.kid) + [entry])
  {
    WithoutFacts(list, entry.kid);
    var rest := Without(list, entry.kid);
    assert forall i :: 0 <= i < |rest| ==> rest[i] in rest;
  }

  lemma NewestOfConcat<T>(x: seq<T>, y: seq<T>, n: nat) returns (rest: seq<T>)
    ensures x + y == rest + Newest(y, n)
    ensures x == [] || |y| >= n ==> rest == [] || |Newest(y, n)| == n
  {
    var newest := Newest(y, n);
    rest := x + y[..|y| - |newest|];
    assert y == y[..|y| - |newest|] + newest;
  }

  lemma LeavesRoom(cache: seq<Entry>, entry: Entry)
    requires DistinctKids(cache)
    ensures |Without(cache, entry.kid) + [entry]| >= |cache|
  {
    WithoutFacts(cache, entry.kid);
  }

  lemma SuffixIsDistinct(older: seq<Entry>, cache: seq<Entry>)
    requires DistinctKids(older + cache)
    ensures DistinctKids(cache)
  {
    var all := older + cache;
    assert forall i :: 0 <= i < |cache| ==> all[|older| + i] == cache[i];
  }

  /** A use, on a cache with older entries before it in the list. */
  lemma UseTrails(older: seq<Entry>, cache: seq<Entry>, entry: Entry) returns (rest: seq<Entry>)
    requires DistinctKids(older + cache) && |cache| <= MAX_KEYS
    ensures Without(older + cache, entry.kid) + [entry] == rest + Put(cache, entry)
    ensures older == [] || |cache| == MAX_KEYS ==> rest == [] || |Put(cache, entry)| == MAX_KEYS
  {
    var x, y := Without(older, entry.kid), Without(cache, entry.kid) + [entry];
    WithoutConcat(older, cache, entry.kid);
    assert Without(older + cache, entry.kid) + [entry] == x + y;
    SuffixIsDistinct(older, cache);
    LeavesRoom(cache, entry);
    rest := NewestOfConcat(x, y, MAX_KEYS);
  }

  /** A hit never evicts: it is a put of the entry that was found. */
  lemma UseIsPut(s: State, p: Piece)
    requires Bounded(s) && Use(s, p).Some?
    ensures Step(s, p).cache == Put(s.cache, Use(s, p).value)
  {
    WithoutFacts(s.cache, Use(s, p).value.kid);
  }

  lemma StepTrails(s: State, older: seq<Entry>, p: Piece) returns (rest: seq<Entry>)
    requires Bounded(s) && DistinctKids(older + s.cache)
    ensures Listed(s, older + s.cache, p) == rest + Step(s, p).cache && DistinctKids(rest + Step(s, p).cache)
    ensures (older == [] || |s.cache| == MAX_KEYS) && Quiet(s, [p]) ==> rest == [] || |Step(s, p).cache| == MAX_KEYS
  {
    rest := older;
    if Use(s, p).Some? {
      UseIsPut(s, p);
      UseIsDistinct(older + s.cache, Use(s, p).value);
      rest := UseTrails(older, s.cache, Use(s, p).value);
    } else if p.Sweep? {
      LiveConcat(older, s.cache, p.now);
      LiveFacts(older + s.cache, p.now);
      rest := Live(older, p.now);
    }
  }

  /** Over any run the unbounded recency list is some older entries followed by the cache: nothing is ever evicted before
    * something older. And if no sweep drops anything, older entries are missing only from a full cache: it is the 32 most
    * recently used kids. */
  lemma {:induction false} CacheIsNewest(s: State, older: seq<Entry>, ps: seq<Piece>) returns (rest: seq<Entry>)
    requires Bounded(s) && DistinctKids(older + s.cache)
    ensures AllListed(s, older + s.cache, ps) == rest + Run(s, ps).cache
    ensures (older == [] || |s.cache| == MAX_KEYS) && Quiet(s, ps) ==> Run(s, ps).cache == Newest(rest + Run(s, ps).cache, MAX_KEYS)
    decreases |ps|
  {
    if |ps| == 0 {
      rest := older;
      assert |older + s.cache| == |older| + |s.cache|;
    } else {
      var next := StepTrails(s, older, ps[0]);
      StepKeepsBounds(s, ps[0]);
      assert Quiet(s, ps) ==> Quiet(s, [ps[0]]) by {
        assert [ps[0]][1..] == [];
      }
      rest := CacheIsNewest(Step(s, ps[0]), next, ps[1..]);
    }
  }

  // ----- How long a used key stays -----

  function Kids(cache: seq<Entry>): set<string> {
    set e | e in cache :: e.kid
  }

  lemma {:induction false} KidsCount(cache: seq<Entry>)
    requires DistinctKids(cache)
    ensures |Kids(cache)| == |cache|
    decreases |cache|
  {
    if |cache| > 0 {
      KidsCount(cache[1..]);
      assert cache == [cache[0]] + cache[1..];
      assert Kids(cache) == {cache[0].kid} + Kids(cache[1..]);
    }
  }

  lemma KidsConcat(x: seq<Entry>, y: seq<Entry>)
    ensures Kids(x + y) == Kids(x) + Kids(y)
  {
    assert forall e :: e in x + y <==> e in x || e in y;
  }

  lemma WithoutKids(cache: seq<Entry>, kid: string)
    requires DistinctKids(cache)
    ensures Kids(Without(cache, kid)) == Kids(cache) - {kid}
  {
    WithoutFacts(cache, kid);
  }

  /** The kids after an entry once another one is used. */
  lemma UseKids(back: seq<Entry>, entry: Entry)
    requires DistinctKids(back)
    ensures var tail := Without(back, entry.kid) + [entry];
      Kids(tail) == Kids(back) + {entry.kid} && |tail| == |Kids(back) + {entry.kid}|
  {
    WithoutKids(back, entry.kid);
    KidsConcat(Without(back, entry.kid), [entry]);
    assert Kids([entry]) == {entry.kid};
    UseIsDistinct(back, entry);
    KidsCount(Without(back, entry.kid) + [entry]);
  }

  lemma NewestAround(front: seq<Entry>, e: Entry, tail: seq<Entry>, n: nat) returns (left: seq<Entry>)
    requires |tail| < n
    ensures Newest(front + [e] + tail, n) == left + [e] + tail
  {
    var all := front + [e] + tail;
    if |all| <= n {
      left := front;
    } else {
      left := front[|all| - n..];
      assert all[|all| - n..] == left + [e] + tail;
    }
  }

  lemma NewestPast(front: seq<Entry>, e: Entry, tail: seq<Entry>, n: nat)
    requires 0 < n <= |tail| && forall i :: 0 <= i < |tail| ==> tail[i].kid != e.kid
    ensures Find(Newest(front + [e] + tail, n), e.kid).None?
  {
    var all := front + [e] + tail;
    var newest := Newest(all, n);
    assert newest == all[|all| - n..];
    forall i | 0 <= i < n ensures newest[i].kid != e.kid {
      assert newest[i] == tail[|tail| - n + i];
    }
  }

  lemma WithoutAround(front: seq<Entry>, e: Entry, back: seq<Entry>, kid: string)
    requires kid != e.kid
    ensures Without(front + [e] + back, kid) == Without(front, kid) + [e] + Without(back, kid)
  {
    WithoutConcat(front + [e], back, kid);
    WithoutConcat(front, [e], kid);
    assert [e][1..] == [] && Without([e], kid) == [e];
  }

  lemma OthersAfter(front: seq<Entry>, e: Entry, back: seq<Entry>, entry: Entry)
    requires DistinctKids(front + [e] + back) && entry.kid != e.kid
    ensures DistinctKids(back)
    ensures var tail := Without(back, entry.kid) + [entry]; forall i :: 0 <= i < |tail| ==> tail[i].kid != e.kid
  {
    var all := front + [e] + back;
    assert all[|front|] == e && forall i :: 0 <= i < |back| ==> all[|front| + 1 + i] == back[i];
    WithoutFacts(back, entry.kid);
    var rest := Without(back, entry.kid);
    assert forall i :: 0 <= i < |rest| ==> rest[i] in rest;
  }

  /** Using another kid: the entry stays, with that kid after it, exactly when there is room. */
  lemma PutAround(front: seq<Entry>, e: Entry, back: seq<Entry>, entry: Entry) returns (left: seq<Entry>, right: seq<Entry>)
    requires DistinctKids(front + [e] + back) && entry.kid != e.kid
    ensures Kids(right) == Kids(back) + {entry.kid}
    ensures |Kids(right)| < MAX_KEYS ==> Put(front + [e] + back, entry) == left + [e] + right
    ensures |Kids(right)| >= MAX_KEYS ==> Find(Put(front + [e] + back, entry), e.kid).None?
  {
    right := Without(back, entry.kid) + [entry];
    OthersAfter(front, e, back, entry);
    UseKids(back, entry);
    WithoutAround(front, e, back, entry.kid);
    var ahead := Without(front, entry.kid);
    assert Without(front + [e] + back, entry.kid) + [entry] == ahead + [e] + right;
    if |right| < MAX_KEYS {
      left := NewestAround(ahead, e, right, MAX_KEYS);
    } else {
      NewestPast(ahead, e, right, MAX_KEYS);
      left := [];
    }
  }

  lemma LiveKids(cache: seq<Entry>, now: int)
    requires DistinctKids(cache)
    ensures Kids(Live(cache, now)) <= Kids(cache)
  {
    LiveFacts(cache, now);
  }

  lemma LiveAround(front: seq<Entry>, e: Entry, back: seq<Entry>, now: int)
    requires now - e.at <= KEY_TTL_MS
    ensures Live(front + [e] + back, now) == Live(front, now) + [e] + Live(back, now)
  {
    LiveConcat(front + [e], back, now);
    LiveConcat(front, [e], now);
    assert [e][1..] == [] && Live([e], now) == [e];
  }

  lemma AroundIsFound(front: seq<Entry>, e: Entry, back: seq<Entry>)
    requires DistinctKids(front + [e] + back)
    ensures Find(front + [e] + back, e.kid) == Some(e) && DistinctKids(back)
  {
    var all := front + [e] + back;
    assert all[|front|] == e && forall i :: 0 <= i < |back| ==> all[|front| + 1 + i] == back[i];
  }

  /** What a piece that does not use the entry's kid does to the entry. */
  lemma StepAround(s: State, p: Piece, front: seq<Entry>, e: Entry, back: seq<Entry>) returns (left: seq<Entry>, right: seq<Entry>)
    requires Bounded(s) && s.cache == front + [e] + back && e.kid !in UsedKid(s, p)
    requires (p.Sweep? ==> p.now - e.at <= KEY_TTL_MS) && |Kids(back)| < MAX_KEYS
    ensures Bounded(Step(s, p))
    ensures Kids(right) <= Kids(back) + UsedKid(s, p)
    ensures Quiet(s, [p]) ==> Kids(right) == Kids(back) + UsedKid(s, p)
    ensures |Kids(right)| < MAX_KEYS ==> Step(s, p).cache == left + [e] + right
    ensures |Kids(right)| >= MAX_KEYS ==> Find(Step(s, p).cache, e.kid).None?
  {
    StepKeepsBounds(s, p);
    left, right := front, back;
    if Use(s, p).Some? {
      UseIsPut(s, p);
      left, right := PutAround(front, e, back, Use(s, p).value);
    } else if p.Sweep? && Live(s.cache, p.now) != s.cache {
      AroundIsFound(front, e, back);
      LiveAround(front, e, back, p.now);
      LiveKids(back, p.now);
      left, right := Live(front, p.now), Live(back, p.now);
      SubsetCount(Kids(right), Kids(back));
    }
  }

  lemma {:induction false} Survives(s: State, ps: seq<Piece>, front: seq<Entry>, e: Entry, back: seq<Entry>, all: set<string>)
    requires Bounded(s) && s.cache == front + [e] + back && e.kid !in UsedKids(s, ps) && NeverExpired(ps, e)
    requires Kids(back) <= all && UsedKids(s, ps) <= all && |all| < MAX_KEYS
    ensures Find(Run(s, ps).cache, e.kid) == Some(e)
    decreases |ps|
  {
    if |ps| == 0 {
      AroundIsFound(front, e, back);
    } else {
      SubsetCount(Kids(back), all);
      var left, right := StepAround(s, ps[0], front, e, back);
      SubsetCount(Kids(right), all);
      Survives(Step(s, ps[0]), ps[1..], left, e, right, all);
    }
  }

  /** After any history a key just imported or hit stays cached, with the same entry, through any further lookups in which
    * fewer than 32 distinct other kids are used and no sweep finds it older than six hours. */
  lemma RecentKidSurvives(before: seq<Piece>, p: Piece, after: seq<Piece>, e: Entry)
    requires Use(Run(INITIAL, before), p) == Some(e)
    requires var s := Step(Run(INITIAL, before), p);
      e.kid !in UsedKids(s, after) && |UsedKids(s, after)| < MAX_KEYS && NeverExpired(after, e)
    ensures Find(Run(Step(Run(INITIAL, before), p), after).cache, e.kid) == Some(e)
  {
    var s, front := JustUsed(before, p, e);
    Survives(s, after, front, e, [], UsedKids(s, after));
  }

  lemma JustUsed(before: seq<Piece>, p: Piece, e: Entry) returns (s: State, front: seq<Entry>)
    requires Use(Run(INITIAL, before), p) == Some(e)
    ensures s == Step(Run(INITIAL, before), p) && Bounded(s) && s.cache == front + [e] + []
  {
    s := Step(Run(INITIAL, before), p);
    CachesStayBounded(INITIAL, before);
    UseIsPut(Run(INITIAL, before), p);
    StepKeepsBounds(Run(INITIAL, before), p);
    front := s.cache[..|s.cache| - 1];
    assert s.cache[|s.cache| - 1] == e;
  }

  lemma {:induction false} StaysLost(s: State, ps: seq<Piece>, kid: string)
    requires Bounded(s) && Find(s.cache, kid).None? && kid !in UsedKids(s, ps)
    ensures Find(Run(s, ps).cache, kid).None?
    decreases |ps|
  {
    if |ps| > 0 {
      StepKeepsBounds(s, ps[0]);
      if Use(s, ps[0]).Some? {
        UseIsPut(s, ps[0]);
        WithoutFacts(s.cache, Use(s, ps[0]).value.kid);
      }
      StaysLost(Step(s, ps[0]), ps[1..], kid);
    }
  }

  lemma QuietParts(s: State, ps: seq<Piece>, e: Entry)
    requires |ps| > 0 && Quiet(s, ps) && e in s.cache && DistinctKids(s.cache)
    ensures Quiet(s, [ps[0]]) && Quiet(Step(s, ps[0]), ps[1..])
    ensures ps[0].Sweep? ==> ps[0].now - e.at <= KEY_TTL_MS
  {
    assert [ps[0]][1..] == [];
    if ps[0].Sweep? {
      LiveFacts(s.cache, ps[0].now);
    }
  }

  lemma {:induction false} EvictedExactly(s: State, ps: seq<Piece>, front: seq<Entry>, e: Entry, back: seq<Entry>, all: set<string>)
    requires Bounded(s) && s.cache == front + [e] + back && e.kid !in UsedKids(s, ps) && Quiet(s, ps)
    requires all == Kids(back) + UsedKids(s, ps) && |Kids(back)| < MAX_KEYS
    ensures Find(Run(s, ps).cache, e.kid) == Some(e) <==> |all| < MAX_KEYS
    decreases |ps|
  {
    AroundIsFound(front, e, back);
    if |ps| == 0 {
      assert all == Kids(back);
    } else {
      QuietParts(s, ps, e);
      var left, right := StepAround(s, ps[0], front, e, back);
      assert all == Kids(right) + UsedKids(Step(s, ps[0]), ps[1..]);
      if |Kids(right)| < MAX_KEYS {
        EvictedExactly(Step(s, ps[0]), ps[1..], left, e, right, all);
      } else {
        SubsetCount(Kids(right), all);
        StaysLost(Step(s, ps[0]), ps[1..], e.kid);
      }
    }
  }

  /** And while no sweep drops anything, 32 distinct other kids are exactly what it takes to evict it. */
  lemma RecentKidEvictedExactly(before: seq<Piece>, p: Piece, after: seq<Piece>, e: Entry)
    requires Use(Run(INITIAL, before), p) == Some(e)
    requires var s := Step(Run(INITIAL, before), p); e.kid !in UsedKids(s, after) && Quiet(s, after)
    ensures var s := Step(Run(INITIAL, before), p);
      Find(Run(s, after).cache, e.kid) == Some(e) <==> |UsedKids(s, after)| < MAX_KEYS
  {
    var s, front := JustUsed(before, p, e);
    EvictedExactly(s, after, front, e, [], UsedKids(s, after));
  }

  // ----- One lookup -----

  /** The last usable certificate published under the kid. */
  function Wanted(certs: seq<Cert>, kid: string): Option<Key> {
    if |certs| == 0 then None
    else
      var cert := certs[|certs| - 1];
      if cert.usable && cert.kid == Some(kid) then Some(cert.key) else Wanted(certs[..|certs| - 1], kid)
  }

  /** The cache once every other usable certificate went in. */
  function ImportOthers(cache: seq<Entry>, certs: seq<Cert>, kid: string, seen: int): seq<Entry> {
    if |certs| == 0 then cache
    else
      var cert, before := certs[|certs| - 1], ImportOthers(cache, certs[..|certs| - 1], kid, seen);
      if cert.usable && cert.kid.Some? && cert.kid != Some(kid) then Put(before, Entry(cert.kid.value, cert.key, seen)) else before
  }

  lemma {:induction false} WantedIsPublished(certs: seq<Cert>, kid: string)
    ensures Wanted(certs, kid).Some? <==> exists c :: c in certs && c.usable && c.kid == Some(kid)
    ensures Wanted(certs, kid).Some? ==> exists c :: c in certs && c.usable && c.kid == Some(kid) && c.key == Wanted(certs, kid).value
    decreases |certs|
  {
    if |certs| > 0 {
      WantedIsPublished(certs[..|certs| - 1], kid);
      assert certs == certs[..|certs| - 1] + [certs[|certs| - 1]];
    }
  }

  lemma {:induction false} ImportKeepsBounds(cache: seq<Entry>, certs: seq<Cert>, kid: string, seen: int)
    requires DistinctKids(cache) && |cache| <= MAX_KEYS
    ensures DistinctKids(ImportOthers(cache, certs, kid, seen)) && |ImportOthers(cache, certs, kid, seen)| <= MAX_KEYS
    decreases |certs|
  {
    if |certs| > 0 {
      var cert := certs[|certs| - 1];
      ImportKeepsBounds(cache, certs[..|certs| - 1], kid, seen);
      if cert.kid.Some? {
        PutFacts(ImportOthers(cache, certs[..|certs| - 1], kid, seen), Entry(cert.kid.value, cert.key, seen));
      }
    }
  }

  /** Importing the other certificates never brings in the kid being looked up. */
  lemma {:induction false} ImportLeavesOut(cache: seq<Entry>, certs: seq<Cert>, kid: string, seen: int)
    requires DistinctKids(cache) && |cache| <= MAX_KEYS && Find(cache, kid).None?
    ensures Find(ImportOthers(cache, certs, kid, seen), kid).None?
    decreases |certs|
  {
    if |certs| > 0 {
      var cert, before := certs[|certs| - 1], ImportOthers(cache, certs[..|certs| - 1], kid, seen);
      ImportLeavesOut(cache, certs[..|certs| - 1], kid, seen);
      ImportKeepsBounds(cache, certs[..|certs| - 1], kid, seen);
      if cert.kid.Some? {
        PutFacts(before, Entry(cert.kid.value, cert.key, seen));
      }
    }
  }

  /** Importing a fetched set is one piece per usable certificate of another kid, in the order they were published. */
  function ImportsOf(certs: seq<Cert>, kid: string, seen: int): seq<Piece> {
    if |certs| == 0 then []
    else
      var cert, before := certs[|certs| - 1], ImportsOf(certs[..|certs| - 1], kid, seen);
      if cert.usable && cert.kid.Some? && cert.kid.value != kid then before + [Import(cert.kid.value, cert.key, seen)] else before
  }

  lemma {:induction false} RunAppends(s: State, ps: seq<Piece>, p: Piece)
    ensures Run(s, ps + [p]) == Step(Run(s, ps), p)
    decreases |ps|
  {
    if |ps| == 0 {
      assert ps + [p] == [p] && [p][1..] == [];
    } else {
      assert (ps + [p])[0] == ps[0] && (ps + [p])[1..] == ps[1..] + [p];
      RunAppends(Step(s, ps[0]), ps[1..], p);
    }
  }

  lemma {:induction false} ImportIsARun(s: State, certs: seq<Cert>, kid: string, seen: int)
    ensures Run(s, ImportsOf(certs, kid, seen)) == s.(cache := ImportOthers(s.cache, certs, kid, seen))
    decreases |certs|
  {
    if |certs| > 0 {
      var cert, init := certs[|certs| - 1], certs[..|certs| - 1];
      ImportIsARun(s, init, kid, seen);
      if cert.usable && cert.kid.Some? && cert.kid.value != kid {
        RunAppends(s, ImportsOf(init, kid, seen), Import(cert.kid.value, cert.key, seen));
      }
    }
  }

  lemma RunTwo(s: State, a: Piece, b: Piece)
    ensures Run(s, [a]) == Step(s, a) && Run(s, [a, b]) == Step(Step(s, a), b)
  {
    assert [a][1..] == [] && [a] + [b] == [a, b];
    RunAppends(s, [a], b);
  }

  /** A missed kid is on record at this time; the others are as they were, but for the oldest when a new one overflows. */
  lemma RememberExactly(misses: seq<Miss>, kid: string, at: int)
    requires DistinctMisses(misses) && |misses| <= 32
    ensures var after := Remember(misses, kid, at);
      && Miss(kid, at) in after && |after| <= 32
      && (forall m :: m in after && m.kid != kid ==> m in misses)
      && (forall m :: m in misses && m.kid != kid ==>
            m in after || (|misses| == 32 && m == misses[0] && forall x :: x in misses ==> x.kid != kid))
  {
    var i, after := MissIndex(misses, kid), Remember(misses, kid, at);
    if i < |misses| {
      assert after == misses[i := Miss(kid, at)] && after[i] == Miss(kid, at);
      forall m | m in misses && m.kid != kid ensures m in after {
        var j :| 0 <= j < |misses| && misses[j] == m;
        assert after[j] == m;
      }
    } else {
      var list := misses + [Miss(kid, at)];
      assert list[|misses|] == Miss(kid, at);
      assert after == list || (|misses| == 32 && after == list[1..] && after[31] == Miss(kid, at));
      forall m | m in misses && m.kid != kid ensures m in after || (|misses| == 32 && m == misses[0]) {
        var j :| 0 <= j < |misses| && misses[j] == m;
        assert list[j] == m;
        if |misses| == 32 && j > 0 {
          assert after[j - 1] == m;
        }
      }
    }
  }

  datatype Lookup = Found(key: Key) | Unknown | Unavailable

  predicate Denied(misses: seq<Miss>, kid: string, now: int) {
    var i := MissIndex(misses, kid);
    i < |misses| && now - misses[i].at < MISS_TTL_MS
  }

  /** The fetched set has a usable certificate under this kid. */
  ghost predicate Publishes(certs: seq<Cert>, kid: string) {
    exists c :: c in certs && c.usable && c.kid == Some(kid)
  }

  /** A found key is cached for this kid for six hours at most, or it is published under it. */
  ghost predicate Answers(cache: seq<Entry>, kid: string, now: int, fetched: Option<seq<Cert>>, key: Key) {
    || (exists e :: e in cache && e.kid == kid && e.key == key && now - e.at <= 21600000)
    || (fetched.Some? && exists c :: c in fetched.value && c.usable && c.kid == Some(kid) && c.key == key)
  }

  /** A kid is denied for a minute after it was missed. */
  lemma DeniedExactly(misses: seq<Miss>, kid: string, now: int)
    requires DistinctMisses(misses)
    ensures Denied(misses, kid, now) <==> exists m :: m in misses && m.kid == kid && now - m.at < 60000
  {
    var i := MissIndex(misses, kid);
    if m :| m in misses && m.kid == kid && now - m.at < 60000 {
      var j :| 0 <= j < |misses| && misses[j] == m;
      assert i == j;
    }
  }

  lemma MissedPieces(s: State, certs: seq<Cert>, kid: string, seen: int)
    ensures Run(s, ImportsOf(certs, kid, seen) + [RememberMiss(kid, seen)]) ==
            State(ImportOthers(s.cache, certs, kid, seen), Remember(s.misses, kid, seen))
  {
    ImportIsARun(s, certs, kid, seen);
    RunAppends(s, ImportsOf(certs, kid, seen), RememberMiss(kid, seen));
  }

  lemma WantedPieces(s: State, certs: seq<Cert>, kid: string, key: Key, seen: int)
    ensures Run(s, ImportsOf(certs, kid, seen) + [Import(kid, key, seen)] + [ForgetMiss(kid)]) ==
            State(Put(ImportOthers(s.cache, certs, kid, seen), Entry(kid, key, seen)), Forget(s.misses, kid))
  {
    ImportIsARun(s, certs, kid, seen);
    RunAppends(s, ImportsOf(certs, kid, seen), Import(kid, key, seen));
    RunAppends(s, ImportsOf(certs, kid, seen) + [Import(kid, key, seen)], ForgetMiss(kid));
  }

  lemma PiecesOf(s: State, kid: string, now: int)
    ensures Run(s, [Sweep(now)]) == s.(cache := Live(s.cache, now))
    ensures Run(s, [Sweep(now), Refresh(kid)]) == Step(s.(cache := Live(s.cache, now)), Refresh(kid))
    ensures Run(s, [Sweep(now), ForgetMiss(kid)]) == State(Live(s.cache, now), Forget(s.misses, kid))
    ensures Run(s, [Sweep(now), SweepMisses(now)]) == State(Live(s.cache, now), LiveMisses(s.misses, now))
    ensures MissIndex(s.misses, kid) < |s.misses| <==> exists m :: m in s.misses && m.kid == kid
  {
    RunTwo(s, Sweep(now), Refresh(kid));
    RunTwo(s, Sweep(now), ForgetMiss(kid));
    RunTwo(s, Sweep(now), SweepMisses(now));
    if m :| m in s.misses && m.kid == kid {
      var i :| 0 <= i < |s.misses| && s.misses[i] == m;
    }
  }

  class KeyCache {
    var cache: seq<Entry>
    var misses: seq<Miss>

    ghost predicate Valid()
      reads this
    {
      Bounded(State(cache, misses))
    }

    constructor ()
      ensures Valid() && cache == [] && misses == []
    {
      cache, misses := [], [];
    }

    /** Deletes while it iterates. */
    method SweepExpiredCertKeys(now: int)
      modifies this`cache
      ensures cache == Live(old(cache), now)
    {
      ghost var start := cache;
      ghost var passed := 0;
      var i := 0;
      while i < |cache|
        invariant 0 <= i <= |cache| && passed + |cache| - i == |start| && passed <= |start|
        invariant cache[..i] == Live(start[..passed], now) && cache[i..] == start[passed..]
        decreases |cache| - i
      {
        ghost var kept, rest := cache[..i], cache[i..];
        assert rest[0] == start[passed] == cache[i];
        LiveSnoc(start[..passed], start[passed], now);
        assert start[..passed] + [start[passed]] == start[..passed + 1];
        assert rest[1..] == start[passed + 1..] == cache[i + 1..];
        if now - cache[i].at > KEY_TTL_MS {
          cache := cache[..i] + cache[i + 1..];
          assert cache[..i] == kept && cache[i..] == rest[1..];
        } else {
          assert cache[..i + 1] == kept + [cache[i]];
          i := i + 1;
        }
        passed := passed + 1;
      }
      assert start[..passed] == start && cache[..i] == cache;
    }

    method PutCertKey(kid: string, key: Key, now: int)
      modifies this`cache
      ensures cache == Put(old(cache), Entry(kid, key, now))
    {
      cache := Without(cache, kid) + [Entry(kid, key, now)];
      ghost var full := cache;
      while |cache| > MAX_KEYS
        invariant |cache| <= |full| && cache == full[|full| - |cache|..]
        invariant |full| >= MAX_KEYS ==> |cache| >= MAX_KEYS
        invariant |full| < MAX_KEYS ==> cache == full
        decreases |cache|
      {
        cache := cache[1..];
      }
    }

    method RememberMissed(kid: string, seen: int)
      modifies this`misses
      ensures misses == Remember(old(misses), kid, seen)
    {
      var i := MissIndex(misses, kid);
      if i < |misses| {
        misses := misses[i := Miss(kid, seen)];
      } else {
        misses := misses + [Miss(kid, seen)];
      }
      if |misses| > MAX_KEYS {
        misses := misses[1..];
      }
    }

    /** The synchronous prefix of a lookup: sweep, hit, recent miss. `None` goes on to fetch. */
    method Consult(kid: string, now: int) returns (result: Option<Lookup>)
      requires Valid()
      modifies this
      ensures Valid()
      ensures var live := Live(old(cache), now);
        if Find(live, kid).Some? then
          && result == Some(Found(Find(live, kid).value.key))
          && cache == Without(live, kid) + [Find(live, kid).value] && misses == old(misses)
        else
          && cache == live
          && (Denied(old(misses), kid, now) ==> result == Some(Unknown) && misses == old(misses))
          && (!Denied(old(misses), kid, now) ==> result == None && MissIndex(misses, kid) == |misses|)
      ensures var was, live := State(old(cache), old(misses)), Live(old(cache), now);
        State(cache, misses) ==
        if Find(live, kid).Some? then Run(was, [Sweep(now), Refresh(kid)])
        else if result.Some? then Run(was, [Sweep(now)])
        else if exists m :: m in was.misses && m.kid == kid then Run(was, [Sweep(now), ForgetMiss(kid)])
        else Run(was, [Sweep(now), SweepMisses(now)])
    {
      PiecesOf(State(cache, misses), kid, now);
      SweepExpiredCertKeys(now);
      LiveFacts(old(cache), now);
      var hit := Find(cache, kid);
      if hit.Some? {
        WithoutFacts(cache, kid);
        cache := Without(cache, kid) + [hit.value];
        return Some(Found(hit.value.key));
      }
      var i := MissIndex(misses, kid);
      if i < |misses| && now - misses[i].at < MISS_TTL_MS {
        return Some(Unknown);
      }
      if i < |misses| {
        ForgetFacts(misses, kid);
        misses := Forget(misses, kid);
      } else {
        LiveMissesFacts(misses, now);
        misses := LiveMisses(misses, now);
      }
      return None;
    }

    /** The rest of a lookup, once the certificates are there. However large the set, the wanted key survives its import;
      * an unpublished kid is remembered, and still answered when another lookup has cached it meanwhile. */
    method Resolve(kid: string, certs: seq<Cert>, seen: int) returns (result: Lookup)
      requires Valid()
      modifies this
      ensures Valid()
      ensures match Wanted(certs, kid)
        case Some(key) =>
          && result == Found(key)
          && cache == Put(ImportOthers(old(cache), certs, kid, seen), Entry(kid, key, seen))
          && Find(cache, kid) == Some(Entry(kid, key, seen))
          && MissIndex(misses, kid) == |misses|
          && State(cache, misses) == Run(State(old(cache), old(misses)), ImportsOf(certs, kid, seen) + [Import(kid, key, seen)] + [ForgetMiss(kid)])
        case None =>
          && result == (if Find(cache, kid).Some? then Found(Find(cache, kid).value.key) else Unknown)
          && cache == ImportOthers(old(cache), certs, kid, seen)
          && misses == Remember(old(misses), kid, seen)
          && State(cache, misses) == Run(State(old(cache), old(misses)), ImportsOf(certs, kid, seen) + [RememberMiss(kid, seen)])
    {
      MissedPieces(State(cache, misses), certs, kid, seen);
      if Wanted(certs, kid).Some? {
        WantedPieces(State(cache, misses), certs, kid, Wanted(certs, kid).value, seen);
      }
      var wanted := ImportAll(certs, kid, seen);
      ImportKeepsBounds(old(cache), certs, kid, seen);
      if wanted.Some? {
        PutFacts(cache, Entry(kid, wanted.value, seen));
        PutCertKey(kid, wanted.value, seen);
        ForgetFacts(misses, kid);
        misses := Forget(misses, kid);
      } else {
        RememberMissed(kid, seen);
      }
      var entry := Find(cache, kid);
      return if entry.Some? then Found(entry.value.key) else Unknown;
    }

    /** One undisturbed lookup: a live entry answers, else a recent miss, else exactly what the fetched set publishes
      * under the kid. A failed fetch answers unavailable and remembers nothing. */
    method KeyFor(kid: string, now: int, fetched: Option<seq<Cert>>, seen: int) returns (result: Lookup)
      requires Valid()
      modifies this
      ensures Valid()
      ensures result.Found? ==> Answers(old(cache), kid, now, fetched, result.key)
      ensures result == Unavailable ==> fetched.None?
      ensures result == Unknown ==>
        && (forall e :: e in old(cache) && e.kid == kid ==> now - e.at > 21600000)
        && ((exists m :: m in old(misses) && m.kid == kid && now - m.at < 60000) || (fetched.Some? && !Publishes(fetched.value, kid)))
      ensures (exists e :: e in old(cache) && e.kid == kid && now - e.at <= 21600000) ==> result.Found?
      ensures (forall e :: e in old(cache) && e.kid == kid ==> now - e.at > 21600000) ==>
        if exists m :: m in old(misses) && m.kid == kid && now - m.at < 60000 then result == Unknown
        else if fetched.None? then result == Unavailable
        else if Publishes(fetched.value, kid) then result.Found?
        else result == Unknown
      ensures var hit := Find(Live(old(cache), now), kid);
        result ==
          if hit.Some? then Found(hit.value.key)
          else if Denied(old(misses), kid, now) then Unknown
          else if fetched.None? then Unavailable
          else if Wanted(fetched.value, kid).Some? then Found(Wanted(fetched.value, kid).value)
          else Unknown
      ensures result.Found? ==> Find(cache, kid).Some? && Find(cache, kid).value.key == result.key
    {
      DeniedExactly(misses, kid, now);
      LiveFacts(cache, now);
      if fetched.Some? {
        WantedIsPublished(fetched.value, kid);
      }
      var early := Consult(kid, now);
      if early.Some? {
        if early.value.Found? {
          WithoutFacts(Live(old(cache), now), kid);
        }
        return early.value;
      }
      if fetched.None? {
        return Unavailable;
      }
      ImportLeavesOut(cache, fetched.value, kid, seen);
      result := Resolve(kid, fetched.value, seen);
    }

    method ImportAll(certs: seq<Cert>, kid: string, seen: int) returns (wanted: Option<Key>)
      modifies this`cache
      ensures cache == ImportOthers(old(cache), certs, kid, seen)
      ensures wanted == Wanted(certs, kid)
    {
      wanted := None;
      for i := 0 to |certs|
        invariant cache == ImportOthers(old(cache), certs[..i], kid, seen)
        invariant wanted == Wanted(certs[..i], kid)
      {
        var cert := certs[i];
        assert certs[..i + 1][..i] == certs[..i];
        if cert.kid.None? || !cert.usable {
          continue;
        }
        if cert.kid.value == kid {
          wanted := Some(cert.key);
        } else {
          PutCertKey(cert.kid.value, cert.key, seen);
        }
      }
      assert certs[..|certs|] == certs;
    }
  }

  lemma {:induction false} LiveSnoc(list: seq<Entry>, last: Entry, now: int)
    ensures Live(list + [last], now) == if now - last.at > KEY_TTL_MS then Live(list, now) else Live(list, now) + [last]
    decreases |list|
  {
    if |list| == 0 {
      assert list + [last] == [last] && [last][1..] == [];
    } else {
      assert (list + [last])[1..] == list[1..] + [last];
      LiveSnoc(list[1..], last, now);
    }
  }

}
