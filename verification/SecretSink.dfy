/** internal/secret_sink.go: the bounded store that binds secrets to random values. */
module SecretSink {
  import opened Sequences

  datatype Entry = Entry(secret: string, random: string)

  /** The first position of `x`, or the length. */
  function IndexOf(l: seq<Entry>, x: string): (i: nat)
    ensures i <= |l| && (i < |l| ==> l[i].secret == x)
    ensures forall j :: 0 <= j < i ==> l[j].secret != x
  {
    if l == [] || l[0].secret == x then 0 else 1 + IndexOf(l[1..], x)
  }

  function Without(l: seq<Entry>, i: nat): seq<Entry>
    requires i < |l|
  {
    l[..i] + l[i + 1..]
  }

  /** The store as a list, least recently used first, after an Add of `x` when the next
      UUID starts with `random` (None: UUID generation fails). */
  function Touch(l: seq<Entry>, x: string, maxCount: nat, random: Option<string>): seq<Entry> {
    TouchAt(l, x, maxCount, random, 0)
  }

  /** The same when a full store evicts the entry at `e`, as it may do on a tie. */
  function TouchAt(l: seq<Entry>, x: string, maxCount: nat, random: Option<string>, e: nat): seq<Entry> {
    var i := IndexOf(l, x);
    if i < |l| then Without(l, i) + [l[i]]
    else
      var kept := Kept(l, maxCount, e);
      if random.None? then kept else kept + [Entry(x, random.value)]
  }

  function Kept(l: seq<Entry>, maxCount: nat, e: nat): seq<Entry> {
    if |l| >= maxCount && e < |l| then Without(l, e) else l
  }

  function KeptStore(m: map<string, Data>, l: seq<Entry>, maxCount: nat, e: nat): map<string, Data> {
    if |l| >= maxCount && e < |l| then m - {l[e].secret} else m
  }

  /** What a stored entry amounts to. */
  datatype Data = Data(random: string, lastUsed: int)

  /** `l` lists the entries of `m`, each once, none after one that was used later. */
  ghost predicate Ordered(m: map<string, Data>, l: seq<Entry>) {
    && |m| == |l|
    && (forall i :: 0 <= i < |l| ==> l[i].secret in m && m[l[i].secret].random == l[i].random)
    && (forall i, j :: 0 <= i < j < |l| ==>
          l[i].secret != l[j].secret && m[l[i].secret].lastUsed <= m[l[j].secret].lastUsed)
  }

  ghost predicate Before(m: map<string, Data>, now: int) {
    forall k :: k in m ==> m[k].lastUsed <= now
  }

  /** No two entries were used at the same clock reading. */
  ghost predicate Untied(m: map<string, Data>) {
    forall x, y :: x in m && y in m && x != y ==> m[x].lastUsed != m[y].lastUsed
  }

  /** The clock has moved on between any two uses, and since the last one. */
  ghost predicate Ticks(m: map<string, Data>, now: int) {
    Untied(m) && forall k :: k in m ==> m[k].lastUsed < now
  }

  ghost predicate Older(m: map<string, Data>, now: int) {
    exists k :: k in m && m[k].lastUsed < now
  }

  /** No entry was used before the one at `e`. */
  ghost predicate Victim(m: map<string, Data>, l: seq<Entry>, e: nat) {
    e < |l| && l[e].secret in m && forall k :: k in m ==> m[l[e].secret].lastUsed <= m[k].lastUsed
  }

  /** Nothing else was used at the same clock reading as the least recently used entry. */
  ghost predicate OldestAlone(m: map<string, Data>, l: seq<Entry>)
    requires forall i :: 0 <= i < |l| ==> l[i].secret in m
  {
    forall j :: 0 < j < |l| ==> m[l[0].secret].lastUsed < m[l[j].secret].lastUsed
  }

  /** The head of the order is the only entry that may be evicted if and only if its use is
      not tied with another. */
  lemma HeadIsVictim(m: map<string, Data>, l: seq<Entry>)
    requires Ordered(m, l) && l != []
    ensures Victim(m, l, 0)
    ensures (forall e: nat :: Victim(m, l, e) ==> e == 0) <==> OldestAlone(m, l)
  {
    forall k | k in m ensures m[l[0].secret].lastUsed <= m[k].lastUsed {
      OrderedCovers(m, l, k);
      assert l[IndexOf(l, k)].secret == k;
    }
    forall j | 0 < j < |l| && m[l[0].secret].lastUsed == m[l[j].secret].lastUsed ensures Victim(m, l, j) {}
  }

  /** Add of a new secret to a full store is the least-recently-used step, whatever entry
      the scan settles on, if and only if the oldest use is not tied with another. */
  lemma EvictsLruExactly(m: map<string, Data>, l: seq<Entry>, x: string, maxCount: nat, random: Option<string>)
    requires Ordered(m, l) && l != [] && |l| >= maxCount && IndexOf(l, x) == |l|
    ensures (forall e: nat :: Victim(m, l, e) ==> TouchAt(l, x, maxCount, random, e) == Touch(l, x, maxCount, random))
       <==> OldestAlone(m, l)
  {
    HeadIsVictim(m, l);
    forall e: nat | Victim(m, l, e) && e > 0
      ensures TouchAt(l, x, maxCount, random, e) != Touch(l, x, maxCount, random)
    {
      assert TouchAt(l, x, maxCount, random, e)[0] == l[0] && Touch(l, x, maxCount, random)[0] == l[1];
    }
  }

  /** With a clock that ticks, Add is the least-recently-used step, and the code dereferences
      nil for nothing but a capacity of 0. */
  lemma TicksIsLru(m: map<string, Data>, l: seq<Entry>, now: int, x: string, maxCount: nat,
                   random: Option<string>, e: nat)
    requires Ordered(m, l) && Ticks(m, now)
    ensures |l| >= maxCount && !Older(m, now) <==> maxCount == 0 && l == []
    ensures |l| < maxCount || IndexOf(l, x) < |l| || Victim(m, l, e) ==>
      TouchAt(l, x, maxCount, random, e) == Touch(l, x, maxCount, random)
  {
    if l != [] {
      assert l[0].secret in m;
      HeadIsVictim(m, l);
    }
  }

  lemma OrderedWithout(m: map<string, Data>, l: seq<Entry>, i: nat)
    requires Ordered(m, l) && i < |l|
    ensures Ordered(m - {l[i].secret}, Without(l, i))
  {
    var r, n := Without(l, i), m - {l[i].secret};
    assert m == n[l[i].secret := m[l[i].secret]];
    forall j | 0 <= j < |r| ensures r[j] == l[Skip(i, j)] && r[j].secret in n {
      assert l[Skip(i, j)].secret != l[i].secret;
    }
  }

  /** Every stored secret is listed. */
  lemma {:induction false} OrderedCovers(m: map<string, Data>, l: seq<Entry>, x: string)
    requires Ordered(m, l)
    ensures x in m <==> IndexOf(l, x) < |l|
  {
    if x in m {
      assert m != map[];
      if l[0].secret != x {
        OrderedWithout(m, l, 0);
        assert Without(l, 0) == l[1..];
        OrderedCovers(m - {l[0].secret}, l[1..], x);
      }
    }
  }

  lemma OrderedStore(m: map<string, Data>, l: seq<Entry>, x: string, d: Data)
    requires Ordered(m, l) && x !in m && Before(m, d.lastUsed)
    ensures Ordered(m[x := d], l + [Entry(x, d.random)])
  {
  }

  function Skip(i: nat, j: nat): nat {
    if j < i then j else j + 1
  }

  /** Moving an entry to the end when its secret is used again. */
  lemma OrderedRefresh(m: map<string, Data>, l: seq<Entry>, x: string, now: int)
    requires Ordered(m, l) && x in m && Before(m, now)
    ensures IndexOf(l, x) < |l| && l[IndexOf(l, x)] == Entry(x, m[x].random)
    ensures Ordered(m[x := Data(m[x].random, now)], Without(l, IndexOf(l, x)) + [Entry(x, m[x].random)])
  {
    OrderedCovers(m, l, x);
    OrderedWithout(m, l, IndexOf(l, x));
    OrderedStore(m - {x}, Without(l, IndexOf(l, x)), x, Data(m[x].random, now));
    assert (m - {x})[x := Data(m[x].random, now)] == m[x := Data(m[x].random, now)];
  }

  /** `lastUsed` is a clock reading. */
  class RandomSecretData {
    const actualSecret: string
    const randomSecret: string
    var lastUsed: int

    constructor (actualSecret: string, randomSecret: string, lastUsed: int)
      ensures this.actualSecret == actualSecret && this.randomSecret == randomSecret && this.lastUsed == lastUsed
    {
      this.actualSecret, this.randomSecret, this.lastUsed := actualSecret, randomSecret, lastUsed;
    }
  }

  datatype Outcome = Random(r: string) | UuidError | Panic

  /** The order after an Add that ended in `r`. */
  function OrderAfter(l: seq<Entry>, x: string, maxCount: nat, e: nat, r: Outcome): seq<Entry> {
    if r.Panic? then l else TouchAt(l, x, maxCount, if r.Random? then Some(r.r) else None, e)
  }

  /** The store after an Add that ended in `r` and recorded the reading `time`. */
  function StoreAfter(m: map<string, Data>, l: seq<Entry>, x: string, maxCount: nat, e: nat, time: int, r: Outcome)
    : map<string, Data>
  {
    var kept := if x in m then m else KeptStore(m, l, maxCount, e);
    match r
    case Panic => m
    case UuidError => kept
    case Random(random) => kept[x := Data(random, time)]
  }

  lemma KeptBefore(m: map<string, Data>, l: seq<Entry>, maxCount: nat, e: nat, now: int)
    requires Before(m, now)
    ensures Before(KeptStore(m, l, maxCount, e), now) && KeptStore(m, l, maxCount, e).Keys <= m.Keys
  {
  }

  lemma NewAfter(m: map<string, Data>, l: seq<Entry>, x: string, maxCount: nat, e: nat, later: int, r: Outcome)
    requires x !in m && IndexOf(l, x) == |l| && !r.Panic?
    ensures var kept, n := Kept(l, maxCount, e), KeptStore(m, l, maxCount, e);
            && OrderAfter(l, x, maxCount, e, r) == kept + (if r.Random? then [Entry(x, r.r)] else [])
            && StoreAfter(m, l, x, maxCount, e, later, r) == if r.Random? then n[x := Data(r.r, later)] else n
  {
  }

  /** The recorded readings are none that were not taken. */
  lemma StampsAfter(m: map<string, Data>, l: seq<Entry>, x: string, maxCount: nat, e: nat,
                    now: int, later: int, r: Outcome)
    requires now <= later && Before(m, now)
    ensures var n := StoreAfter(m, l, x, maxCount, e, if x in m then now else later, r);
            Before(n, later) && (Ticks(m, now) ==> Ticks(n, later + 1))
  {
  }

  /** `keys` is an order in which a range over a map with these keys may visit them. */
  ghost predicate Visits(keys: seq<string>, all: set<string>) {
    NoDup(keys) && forall k :: k in keys <==> k in all
  }

  /** Whatever is visited before `x` was used after it. */
  ghost predicate FirstVisited(m: map<string, Data>, keys: seq<string>, x: string) {
    exists i :: 0 <= i < |keys| && keys[i] == x && x in m
      && forall j :: 0 <= j < i ==> keys[j] in m && m[keys[j]].lastUsed > m[x].lastUsed
  }

  /** What the scan finds: none was used before it, and it is the first such one visited. */
  ghost predicate IsOldest(m: map<string, Data>, keys: seq<string>, x: string) {
    x in m && (forall k :: k in m ==> m[x].lastUsed <= m[k].lastUsed) && FirstVisited(m, keys, x)
  }

  /** The scan that visits the keys in this order settles on the entry at `e`. */
  ghost predicate Found(m: map<string, Data>, l: seq<Entry>, keys: seq<string>, e: nat) {
    Victim(m, l, e) && FirstVisited(m, keys, l[e].secret)
  }

  /** The stored secrets in the order of last use, but for the one at `e`, which comes first. */
  function HeadedBy(l: seq<Entry>, e: nat): (keys: seq<string>)
    requires e < |l|
    ensures |keys| == |l| && keys[0] == l[e].secret
    ensures forall i :: 0 < i < |l| ==> keys[i] == l[Skip(e, i - 1)].secret
  {
    seq(|l|, i requires 0 <= i < |l| => if i == 0 then l[e].secret else l[Skip(e, i - 1)].secret)
  }

  lemma HeadedByVisits(m: map<string, Data>, l: seq<Entry>, e: nat)
    requires Ordered(m, l) && e < |l|
    ensures Visits(HeadedBy(l, e), m.Keys)
  {
    var keys := HeadedBy(l, e);
    forall k | k in m ensures k in keys {
      OrderedCovers(m, l, k);
      var i := IndexOf(l, k);
      assert keys[if i == e then 0 else if i < e then i + 1 else i] == k;
    }
  }

  /** Every candidate can be the one: some order of visiting settles on it. */
  lemma AnyVictimCanBeFound(m: map<string, Data>, l: seq<Entry>, e: nat)
    requires Ordered(m, l) && Victim(m, l, e)
    ensures exists keys: seq<string> :: Visits(keys, m.Keys) && Found(m, l, keys, e)
  {
    HeadedByVisits(m, l, e);
    var keys := HeadedBy(l, e);
    assert keys[0] == l[e].secret && FirstVisited(m, keys, l[e].secret);
    assert Found(m, l, keys, e);
  }

  class RandomSecretSink {
    const maxCount: nat
    var secretStore: map<string, RandomSecretData>
    ghost var order: seq<Entry>
    ghost var store: map<string, Data>

    /** Every entry is stored under its own secret, `store` says what the entries amount to,
        and `order` lists them by last use. */
    ghost predicate Valid()
      reads this, secretStore.Values
    {
      && store.Keys == secretStore.Keys
      && (forall k :: k in secretStore ==>
            var d := secretStore[k]; d.actualSecret == k && store[k] == Data(d.randomSecret, d.lastUsed))
      && Ordered(store, order)
    }

    /** Every stored object was stored there before, or is new. */
    twostate predicate OnlyNew()
      reads this
    {
      forall k :: k in secretStore ==>
        fresh(secretStore[k]) || (k in old(secretStore) && secretStore[k] == old(secretStore[k]))
    }

    constructor (maxCount: nat)
      ensures Valid() && order == [] && store == map[] && this.maxCount == maxCount && secretStore == map[]
    {
      this.maxCount, secretStore, order, store := maxCount, map[], [], map[];
    }

    /** The scan for an oldest entry, which visits the map in the order `keys`; it finds
        nothing exactly when no entry is older than `now`. */
    method Oldest(now: int, keys: seq<string>) returns (oldest: RandomSecretData?)
      requires Valid() && Visits(keys, secretStore.Keys)
      ensures oldest == null <==> !Older(store, now)
      ensures oldest != null ==> IsOldest(store, keys, oldest.actualSecret)
    {
      oldest := null;
      var oldestTime := now;
      ghost var at := 0;
      for i := 0 to |keys|
        invariant oldest == null ==> oldestTime == now
        invariant oldest != null ==>
          && at < i && oldest.actualSecret == keys[at] && keys[at] in secretStore && secretStore[keys[at]] == oldest
          && oldest.lastUsed == oldestTime < now
          && forall j :: 0 <= j < at ==> secretStore[keys[j]].lastUsed > oldestTime
        invariant forall j :: 0 <= j < i ==> secretStore[keys[j]].lastUsed >= oldestTime
      {
        assert keys[i] in secretStore;
        var data := secretStore[keys[i]];
        if oldestTime > data.lastUsed {
          oldestTime, oldest, at := data.lastUsed, data, i;
        }
      }
      assert forall k :: k in store ==> k in keys && store[k].lastUsed >= oldestTime;
      if oldest != null { assert store[oldest.actualSecret].lastUsed < now; }
    }

    /** The branch of Add for a secret that is already stored. */
    method Refresh(actualSecret: string, now: int) returns (r: string)
      requires Valid() && actualSecret in secretStore && Before(store, now)
      modifies this`order, this`store, secretStore.Values
      ensures Valid() && store == old(store)[actualSecret := Data(r, now)]
      ensures order == Touch(old(order), actualSecret, maxCount, None)
      ensures order[|order| - 1] == Entry(actualSecret, r)
    {
      var data := secretStore[actualSecret];
      OrderedRefresh(store, order, actualSecret, now);
      data.lastUsed := now;
      store := store[actualSecret := Data(data.randomSecret, now)];
      order := Without(order, IndexOf(order, actualSecret)) + [Entry(actualSecret, data.randomSecret)];
      r := data.randomSecret;
    }

    /** The deletion of the entry that the scan found, which is at `e` in the order. */
    method Evict(oldest: RandomSecretData) returns (ghost e: nat)
      requires Valid() && oldest.actualSecret in secretStore
      modifies this`order, this`store, this`secretStore
      ensures Valid() && store == old(store) - {oldest.actualSecret}
      ensures secretStore == old(secretStore) - {oldest.actualSecret}
      ensures e < |old(order)| && old(order)[e].secret == oldest.actualSecret && order == Without(old(order), e)
    {
      OrderedCovers(store, order, oldest.actualSecret);
      e := IndexOf(order, oldest.actualSecret);
      OrderedWithout(store, order, e);
      secretStore := secretStore - {oldest.actualSecret};
      store := store - {oldest.actualSecret};
      order := Without(order, e);
    }

    method Insert(actualSecret: string, random: string, later: int)
      requires Valid() && actualSecret !in secretStore && Before(store, later)
      modifies this`order, this`store, this`secretStore
      ensures Valid() && OnlyNew()
      ensures order == old(order) + [Entry(actualSecret, random)]
      ensures store == old(store)[actualSecret := Data(random, later)]
    {
      OrderedStore(store, order, actualSecret, Data(random, later));
      var data := new RandomSecretData(actualSecret, random, later);
      secretStore := secretStore[actualSecret := data];
      order := order + [Entry(actualSecret, random)];
      store := store[actualSecret := Data(random, later)];
    }

    /** The eviction from a full store; false where the code dereferences nil. */
    method EvictOldest(now: int, keys: seq<string>) returns (ok: bool, ghost e: nat)
      requires Valid() && Visits(keys, secretStore.Keys)
      modifies this`order, this`store, this`secretStore
      ensures Valid() && secretStore.Keys <= old(secretStore.Keys) && OnlyNew()
      ensures ok <==> Older(old(store), now)
      ensures ok ==> Found(old(store), old(order), keys, e) && order == Without(old(order), e)
      ensures ok ==> store == old(store) - {old(order)[e].secret}
      ensures !ok ==> order == old(order) && store == old(store)
    {
      var oldest := Oldest(now, keys);
      if oldest == null { return false, 0; }
      e := Evict(oldest);
      return true, e;
    }

    method MakeRoom(now: int, keys: seq<string>) returns (ok: bool, ghost e: nat)
      requires Valid() && Visits(keys, secretStore.Keys)
      modifies this`order, this`store, this`secretStore
      ensures Valid() && secretStore.Keys <= old(secretStore.Keys) && OnlyNew()
      ensures ok <==> |old(order)| < maxCount || Older(old(store), now)
      ensures !ok ==> order == old(order) && store == old(store)
      ensures ok ==> order == Kept(old(order), maxCount, e) && store == KeptStore(old(store), old(order), maxCount, e)
      ensures ok && |old(order)| >= maxCount ==> Found(old(store), old(order), keys, e)
    {
      assert |secretStore| == |secretStore.Keys| == |store.Keys| == |order|;
      if |secretStore| < maxCount { return true, 0; }
      ok, e := EvictOldest(now, keys);
    }

    /** A new random value for a secret that is not stored, after room has been made in the
        store `m` with order `l`. */
    method Bind(actualSecret: string, later: int, uuid: Option<string>,
                ghost m: map<string, Data>, ghost l: seq<Entry>, ghost e: nat) returns (r: Outcome)
      requires Valid() && Before(store, later) && actualSecret !in m && IndexOf(l, actualSecret) == |l|
      requires order == Kept(l, maxCount, e) && store == KeptStore(m, l, maxCount, e)
      requires uuid.Some? ==> |uuid.value| >= 8
      modifies this`order, this`store, this`secretStore
      ensures Valid() && OnlyNew()
      ensures r == if uuid.None? then UuidError else Random(uuid.value[..8])
      ensures order == OrderAfter(l, actualSecret, maxCount, e, r)
      ensures store == StoreAfter(m, l, actualSecret, maxCount, e, later, r)
    {
      r := if uuid.None? then UuidError else Random(uuid.value[..8]);
      NewAfter(m, l, actualSecret, maxCount, e, later, r);
      if uuid.Some? { Insert(actualSecret, uuid.value[..8], later); }
    }

    /** The rest of Add, for a secret that is not stored. */
    method AddNew(actualSecret: string, now: int, later: int, uuid: Option<string>, keys: seq<string>)
      returns (r: Outcome, ghost e: nat)
      requires Valid() && actualSecret !in secretStore && Before(store, now) && now <= later
      requires uuid.Some? ==> |uuid.value| >= 8
      requires Visits(keys, secretStore.Keys)
      modifies this`order, this`store, this`secretStore
      ensures Valid() && OnlyNew()
      ensures r == if |old(order)| >= maxCount && !Older(old(store), now) then Panic
                   else if uuid.None? then UuidError else Random(uuid.value[..8])
      ensures !r.Panic? && |old(order)| >= maxCount ==> Found(old(store), old(order), keys, e)
      ensures order == OrderAfter(old(order), actualSecret, maxCount, e, r)
      ensures store == StoreAfter(old(store), old(order), actualSecret, maxCount, e, later, r)
    {
      OrderedCovers(store, order, actualSecret);
      var ok;
      ok, e := MakeRoom(now, keys);
      if !ok { return Panic, e; }
      KeptBefore(old(store), old(order), maxCount, e, now);
      r := Bind(actualSecret, later, uuid, old(store), old(order), e);
    }

    /** Add, when Go's range visits the map in the order `keys`.  `now` and `later` are the
        clock readings taken, which never run backwards; `uuid` is the generated UUID (None:
        its generation fails).  A full store whose entries all carry the reading `now`, as
        after a tie or with `maxCount` 0, makes the code dereference nil; otherwise it evicts
        the first visited of the entries used longest ago, which was at `e` in the order. */
    method AddVisiting(actualSecret: string, now: int, later: int, uuid: Option<string>, keys: seq<string>)
      returns (r: Outcome, ghost e: nat)
      requires Valid() && Before(store, now) && now <= later
      requires uuid.Some? ==> |uuid.value| >= 8
      requires Visits(keys, secretStore.Keys)
      modifies this`order, this`store, this`secretStore, secretStore.Values
      ensures Valid() && OnlyNew()
      ensures Added(old(store), old(order), actualSecret, now, later, uuid, r, e)
      ensures Before(store, later) && (old(Ticks(store, now)) ==> Ticks(store, later + 1))
      ensures !r.Panic? && actualSecret !in old(secretStore) && |old(order)| >= maxCount ==>
        FirstVisited(old(store), keys, old(order)[e].secret)
    {
      OrderedCovers(store, order, actualSecret);
      if actualSecret in secretStore {
        var known := Refresh(actualSecret, now);
        r, e := Random(known), 0;
      } else {
        r, e := AddNew(actualSecret, now, later, uuid, keys);
      }
      StampsAfter(old(store), old(order), actualSecret, maxCount, e, now, later, r);
    }

    /** Go's range visits a map in any order. */
    method Add(actualSecret: string, now: int, later: int, uuid: Option<string>)
      returns (r: Outcome, ghost e: nat)
      requires Valid() && Before(store, now) && now <= later
      requires uuid.Some? ==> |uuid.value| >= 8
      modifies this`order, this`store, this`secretStore, secretStore.Values
      ensures Valid() && OnlyNew()
      ensures Added(old(store), old(order), actualSecret, now, later, uuid, r, e)
      ensures Before(store, later) && (old(Ticks(store, now)) ==> Ticks(store, later + 1))
    {
      var keys := AnyOrder(secretStore.Keys);
      r, e := AddVisiting(actualSecret, now, later, uuid, keys);
    }

    /** What an Add from store `m` and order `l` has done, when the evicted entry was at `e`. */
    ghost predicate Added(m: map<string, Data>, l: seq<Entry>, x: string, now: int, later: int,
                          uuid: Option<string>, r: Outcome, e: nat)
      requires uuid.Some? ==> |uuid.value| >= 8
      reads this
    {
      var full := x !in m && |l| >= maxCount;
      && (r.Panic? <==> full && !Older(m, now))
      && (r.UuidError? <==> !r.Panic? && x !in m && uuid.None?)
      && (r.Random? ==> if x in m then r.r == m[x].random else uuid.Some? && r.r == uuid.value[..8])
      && (full && !r.Panic? ==> Victim(m, l, e))
      && order == OrderAfter(l, x, maxCount, e, r)
      && store == StoreAfter(m, l, x, maxCount, e, if x in m then now else later, r)
      && (r.Random? ==> order != [] && order[|order| - 1] == Entry(x, r.r))
    }
  }

  method AnyOrder(s: set<string>) returns (keys: seq<string>)
    ensures Visits(keys, s)
  {
    keys := [];
    var todo := s;
    while todo != {}
      invariant todo <= s && NoDup(keys) && forall k :: k in keys <==> k in s - todo
    {
      var k :| k in todo;
      assert k !in keys;
      keys, todo := keys + [k], todo - {k};
    }
  }
}
