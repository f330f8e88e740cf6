/** Runs of the secret sink: any sequence of Add calls with a ticking clock makes it the
    least-recently-used cache of module SecretSinkTheorems, and two runs in which a tie of
    clock readings breaks what Add promises. */
module SecretSinkRuns {
  import opened Sequences
  import opened SecretSink
  import opened SecretSinkTheorems

  /** One call: the secret, the UUID generated for it should it be new, and the readings. */
  datatype Call = Call(secret: string, uuid: string, now: int, later: int)

  function EntryOf(c: Call): Entry
    requires |c.uuid| >= 8
  {
    Entry(c.secret, c.uuid[..8])
  }

  function EntriesOf(calls: seq<Call>): seq<Entry>
    requires forall c :: c in calls ==> |c.uuid| >= 8
  {
    seq(|calls|, i requires 0 <= i < |calls| => EntryOf(calls[i]))
  }

  /** Each reading is later than those of the calls before. */
  ghost predicate ClockTicks(calls: seq<Call>) {
    && (forall c :: c in calls ==> c.now <= c.later)
    && forall i, j :: 0 <= i < j < |calls| ==> calls[i].later < calls[j].now
  }

  lemma OrderedKeys(m: map<string, Data>, l: seq<Entry>)
    requires Ordered(m, l)
    ensures m.Keys == SecretsOf(l)
  {
    forall x ensures x in m <==> x in SecretsOf(l) {
      OrderedCovers(m, l, x);
      HoldsIs(l, x);
    }
  }

  /** The last entry is the one that its secret is bound by. */
  lemma BoundLast(m: map<string, Data>, l: seq<Entry>)
    requires Ordered(m, l) && l != []
    ensures Bound(l, l[|l| - 1].secret) == Some(l[|l| - 1].random)
  {
  }

  /** What the cache binds to each secret right after it has been added. */
  function Answers(adds: seq<Entry>, k: nat): seq<Option<string>> {
    if adds == [] then []
    else Answers(adds[..|adds| - 1], k) + [Bound(Run(adds, k), adds[|adds| - 1].secret)]
  }

  lemma RunStep(all: seq<Entry>, i: nat, k: nat)
    requires i < |all|
    ensures Run(all[..i + 1], k) == Touch(Run(all[..i], k), all[i].secret, k, Some(all[i].random))
    ensures Answers(all[..i + 1], k) == Answers(all[..i], k) + [Bound(Run(all[..i + 1], k), all[i].secret)]
  {
    assert all[..i + 1][..i] == all[..i];
  }

  /** One call while the clock ticks. */
  method Tick(sink: RandomSecretSink, c: Call) returns (answer: string)
    requires sink.Valid() && sink.maxCount > 0 && Ticks(sink.store, c.now) && c.now <= c.later && |c.uuid| >= 8
    modifies sink, sink.secretStore.Values
    ensures sink.Valid() && sink.OnlyNew()
    ensures sink.order == Touch(old(sink.order), c.secret, sink.maxCount, Some(c.uuid[..8]))
    ensures Bound(sink.order, c.secret) == Some(answer) && Ticks(sink.store, c.later + 1)
  {
    ghost var m, l := sink.store, sink.order;
    var r, e := sink.Add(c.secret, c.now, c.later, Some(c.uuid));
    OrderedCovers(m, l, c.secret);
    TicksIsLru(m, l, c.now, c.secret, sink.maxCount, Some(r.r), e);
    BoundLast(sink.store, sink.order);
    answer := r.r;
  }

  /** The next call of a run. */
  method Step(sink: RandomSecretSink, c: Call, ghost all: seq<Entry>, ghost i: nat, ghost next: int)
    returns (answer: string)
    requires sink.Valid() && sink.maxCount > 0 && Ticks(sink.store, c.now) && c.now <= c.later < next
    requires |c.uuid| >= 8 && i < |all| && all[i] == EntryOf(c) && sink.order == Run(all[..i], sink.maxCount)
    modifies sink, sink.secretStore.Values
    ensures sink.Valid() && sink.OnlyNew() && Ticks(sink.store, next)
    ensures sink.order == Run(all[..i + 1], sink.maxCount)
    ensures Answers(all[..i + 1], sink.maxCount) == Answers(all[..i], sink.maxCount) + [Some(answer)]
  {
    RunStep(all, i, sink.maxCount);
    answer := Tick(sink, c);
  }

  /** After any sequence of Add calls a sink's store, its order and all its answers are those
      of the cache. */
  method Replay(maxCount: nat, calls: seq<Call>) returns (sink: RandomSecretSink, answers: seq<Option<string>>)
    requires maxCount > 0 && ClockTicks(calls) && forall c :: c in calls ==> |c.uuid| >= 8
    ensures fresh(sink) && sink.Valid() && sink.maxCount == maxCount
    ensures sink.order == Run(EntriesOf(calls), maxCount) && sink.secretStore.Keys == SecretsOf(sink.order)
    ensures answers == Answers(EntriesOf(calls), maxCount)
  {
    sink := new RandomSecretSink(maxCount);
    answers := [];
    ghost var all := EntriesOf(calls);
    for i := 0 to |calls|
      invariant sink.Valid() && fresh(sink) && sink.maxCount == maxCount
      invariant forall k :: k in sink.secretStore ==> fresh(sink.secretStore[k])
      invariant sink.order == Run(all[..i], maxCount) && answers == Answers(all[..i], maxCount)
      invariant Ticks(sink.store, Until(calls, i))
    {
      assert calls[i] in calls;
      var answer := Step(sink, calls[i], all, i, Until(calls, i + 1));
      answers := answers + [Some(answer)];
    }
    Whole(all);
    OrderedKeys(sink.store, sink.order);
  }

  /** A reading later than those of the first `i` calls, and none later than the next. */
  ghost function Until(calls: seq<Call>, i: nat): int
    requires i <= |calls|
  {
    if i < |calls| then calls[i].now else if i > 0 then calls[i - 1].later + 1 else 0
  }

  lemma Whole(all: seq<Entry>)
    ensures all[..|all|] == all
  {
  }

  /** Two calls at one reading make a sink of capacity 1 dereference nil. */
  method TieDereferencesNil(now: int, a: string, b: string, uuid: string) returns (r: Outcome)
    requires a != b && |uuid| >= 8
    ensures r.Panic?
  {
    var sink := new RandomSecretSink(1);
    var first, _ := sink.Add(a, now, now, Some(uuid));
    ghost var e;
    r, e := sink.Add(b, now, now, Some(uuid));
  }

  method TwoAtOnce(now: int, a: string, b: string, uuid: string) returns (sink: RandomSecretSink)
    requires a != b && |uuid| >= 8
    ensures fresh(sink) && fresh(sink.secretStore.Values) && sink.Valid() && sink.maxCount == 2
    ensures sink.order == [Entry(a, uuid[..8]), Entry(b, uuid[..8])]
    ensures sink.store == map[a := Data(uuid[..8], now), b := Data(uuid[..8], now)]
  {
    var r;
    ghost var e;
    sink, r := OneUse(now, now, a, uuid);
    r, e := sink.Add(b, now, now, Some(uuid));
  }

  /** A new secret is recorded with the second reading, bound to eight characters. */
  method OneUse(now: int, later: int, a: string, uuid: string) returns (sink: RandomSecretSink, r: Outcome)
    requires |uuid| >= 8 && now <= later
    ensures fresh(sink) && fresh(sink.secretStore.Values) && sink.Valid() && sink.maxCount == 2
    ensures r == Random(uuid[..8]) && sink.order == [Entry(a, uuid[..8])]
    ensures sink.store == map[a := Data(uuid[..8], later)]
  {
    sink := new RandomSecretSink(2);
    ghost var e;
    r, e := sink.Add(a, now, later, Some(uuid));
  }

  /** A known secret keeps its value and is recorded with the first reading. */
  method TwoUses(t0: int, t1: int, t2: int, t3: int, a: string, uuid: string, other: Option<string>)
    returns (sink: RandomSecretSink, r: Outcome)
    requires |uuid| >= 8 && t0 <= t1 <= t2 <= t3 && (other.Some? ==> |other.value| >= 8)
    ensures sink.Valid() && r == Random(uuid[..8]) && sink.store == map[a := Data(uuid[..8], t2)]
  {
    sink, r := OneUse(t0, t1, a, uuid);
    ghost var e;
    r, e := sink.Add(a, t2, t3, other);
  }

  /** When a UUID cannot be had, the eviction has been made all the same. */
  method UuidErrorStillEvicts(now: int, a: string, b: string, uuid: string) returns (r: Outcome, left: set<string>)
    requires a != b && |uuid| >= 8
    ensures r.UuidError? && left == {}
  {
    var sink := new RandomSecretSink(1);
    ghost var e;
    r, e := sink.Add(a, now, now, Some(uuid));
    assert sink.store == map[a := Data(uuid[..8], now)];
    assert Older(sink.store, now + 1);
    r, e := sink.Add(b, now + 1, now + 1, None);
    assert sink.order == [];
    left := sink.secretStore.Keys;
    assert |left| == |sink.store.Keys| == |sink.store| == 0;
  }

  /** Two calls at one reading, and a third later one, make a sink of capacity 2 evict the
      secret used last, if the map is visited in that order. */
  method TieEvictsNewest(now: int, a: string, b: string, c: string, uuid: string)
    returns (left: set<string>)
    requires a != b && b != c && a != c && |uuid| >= 8
    ensures left == {a, c}
  {
    var sink := TwoAtOnce(now, a, b, uuid);
    ghost var m, l := sink.store, sink.order;
    assert sink.secretStore.Keys == m.Keys == {a, b};
    var r, e := sink.AddVisiting(c, now + 1, now + 1, Some(uuid), [b, a]);
    FirstOfTwo(m, a, b, l[e].secret);
    assert e == 1;
    LeftOfTwo(m, l, a, b, c, now + 1, r);
    left := sink.secretStore.Keys;
  }

  lemma LeftOfTwo(m: map<string, Data>, l: seq<Entry>, a: string, b: string, c: string, time: int, r: Outcome)
    requires m.Keys == {a, b} && |l| == 2 && l[1].secret == b && c !in m && a != b && r.Random?
    ensures StoreAfter(m, l, c, 2, 1, time, r).Keys == {a, c}
  {
  }

  lemma FirstOfTwo(m: map<string, Data>, a: string, b: string, x: string)
    requires a != b && m.Keys == {a, b} && m[a].lastUsed == m[b].lastUsed && FirstVisited(m, [b, a], x)
    ensures x == b
  {
    assert [b, a][0] == b && [b, a][1] == a;
  }
}
