/**
 Provision keys: the store, and what its background cleanup may and may not change.
 Times are readings of one clock; a fresh key string is given by the caller.
 */
module KeyStore {
  import opened Basics

  datatype ProvisionKey = ProvisionKey(agent: string, createdAt: int, expiresAt: int, used: bool)

  type Store = map<string, ProvisionKey>

  /** What List shows of a key. */
  datatype Info = Info(agent: string, createdAt: int, expiresAt: int)

  datatype Verdict = Accepted(pk: ProvisionKey) | NotFound | AlreadyUsed | Expired

  predicate Dead(pk: ProvisionKey, now: int) {
    pk.used || now > pk.expiresAt
  }

  function Check(keys: Store, key: string, now: int): Verdict {
    if key !in keys then NotFound
    else if keys[key].used then AlreadyUsed
    else if now > keys[key].expiresAt then Expired
    else Accepted(keys[key])
  }

  function InfoOf(pk: ProvisionKey): Info {
    Info(pk.agent, pk.createdAt, pk.expiresAt)
  }

  /** The keys that are neither used nor expired. */
  function Live(keys: Store, now: int): Store {
    map k | k in keys && !Dead(keys[k], now) :: keys[k]
  }

  /** The same when the clock is read anew for every key. */
  function LiveBy(keys: Store, clock: string -> int): Store {
    map k | k in keys && !Dead(keys[k], clock(k)) :: keys[k]
  }

  function WithoutAgent(keys: Store, agent: string): Store {
    map k | k in keys && keys[k].agent != agent :: keys[k]
  }

  predicate HasKeyOf(keys: Store, agent: string) {
    exists k :: k in keys && keys[k].agent == agent
  }

  ghost predicate ListsInOrder(result: seq<Info>, live: Store, order: seq<string>) {
    && Distinct(order) && |result| == |order| && (forall k :: k in order <==> k in live)
    && forall i :: 0 <= i < |order| ==>
         && order[i] in live && result[i].agent == live[order[i]].agent
         && result[i].createdAt == live[order[i]].createdAt && result[i].expiresAt == live[order[i]].expiresAt
  }

  /** One entry per key, in some order. */
  ghost predicate Lists(result: seq<Info>, live: Store) {
    exists order :: ListsInOrder(result, live, order)
  }

  function MarkedUsed(keys: Store, key: string): Store {
    if key in keys then keys[key := keys[key].(used := true)] else keys
  }

  class Keys {
    var keys: Store
    const ttl: int

    constructor (ttl: int)
      ensures keys == map[] && this.ttl == ttl
    {
      keys := map[];
      this.ttl := ttl;
    }

    method Create(key: string, agent: string, now: int) returns (pk: ProvisionKey)
      modifies this`keys
      ensures pk == ProvisionKey(agent, now, now + ttl, false)
      ensures keys == old(keys)[key := pk]
    {
      pk := ProvisionKey(agent, now, now + ttl, false);
      keys := keys[key := pk];
    }

    method Validate(key: string, now: int) returns (v: Verdict)
      ensures v == Check(keys, key, now)
      ensures v.Accepted? <==> key in Live(keys, now)
      ensures v.NotFound? <==> key !in keys
      ensures v.AlreadyUsed? <==> key in keys && keys[key].used
      ensures v.Expired? <==> key in keys && !keys[key].used && now > keys[key].expiresAt
      ensures v.Accepted? ==> v.pk == keys[key] && !v.pk.used && now <= v.pk.expiresAt
    {
      if key !in keys {
        return NotFound;
      }
      var pk := keys[key];
      if pk.used {
        return AlreadyUsed;
      }
      if now > pk.expiresAt {
        return Expired;
      }
      return Accepted(pk);
    }

    method MarkUsed(key: string)
      modifies this`keys
      ensures keys == MarkedUsed(old(keys), key)
    {
      if key in keys {
        keys := keys[key := keys[key].(used := true)];
      }
    }

    method Revoke(agent: string) returns (removed: bool)
      modifies this`keys
      ensures keys == WithoutAgent(old(keys), agent)
      ensures removed <==> HasKeyOf(old(keys), agent)
    {
      removed := false;
      var todo := keys.Keys;
      while todo != {}
        invariant todo <= old(keys).Keys
        invariant forall k :: k in keys <==> k in old(keys) && (k in todo || old(keys)[k].agent != agent)
        invariant forall k :: k in keys ==> keys[k] == old(keys)[k]
        invariant removed <==> exists k :: k in old(keys) && k !in todo && old(keys)[k].agent == agent
        decreases |todo|
      {
        var k :| k in todo;
        todo := todo - {k};
        if keys[k].agent == agent {
          keys := keys - {k};
          removed := true;
        }
      }
    }

    /** clock gives the reading at each key. */
    method List(clock: string -> int) returns (result: seq<Info>)
      ensures Lists(result, LiveBy(keys, clock))
    {
      result := [];
      ghost var order: seq<string> := [];
      var todo := keys.Keys;
      while todo != {}
        invariant todo <= keys.Keys
        invariant Distinct(order) && |result| == |order|
        invariant forall k :: k in order <==> k in LiveBy(keys, clock) && k !in todo
        invariant forall i :: 0 <= i < |order| ==> order[i] in keys && result[i] == InfoOf(keys[order[i]])
        decreases |todo|
      {
        var k :| k in todo;
        todo := todo - {k};
        if !Dead(keys[k], clock(k)) {
          result := result + [InfoOf(keys[k])];
          order := order + [k];
        }
      }
      assert ListsInOrder(result, LiveBy(keys, clock), order);
    }

    method Cleanup(now: int) returns (removed: nat)
      modifies this`keys
      ensures keys == Live(old(keys), now)
      ensures removed == |old(keys)| - |keys|
    {
      removed := 0;
      var todo := keys.Keys;
      while todo != {}
        invariant todo <= old(keys).Keys
        invariant forall k :: k in keys <==> k in old(keys) && (k in todo || !Dead(old(keys)[k], now))
        invariant forall k :: k in keys ==> keys[k] == old(keys)[k]
        invariant removed == |old(keys)| - |keys|
        decreases |todo|
      {
        var k :| k in todo;
        todo := todo - {k};
        if Dead(keys[k], now) {
          keys := keys - {k};
          removed := removed + 1;
        }
      }
    }
  }

  // ---- runs of operations ----

  datatype Op =
    | Create(key: string, agent: string, now: int)
    | Validate(key: string, now: int)
    | MarkUsed(key: string, now: int)
    | Revoke(agent: string, now: int)
    | List(now: int, clock: string -> int)      // from now on, each key at its own reading
    | Cleanup(now: int)

  /** The store after one operation, as the class leaves it. */
  function Step(keys: Store, ttl: int, op: Op): Store {
    match op
    case Create(key, agent, now) => keys[key := ProvisionKey(agent, now, now + ttl, false)]
    case MarkUsed(key, _) => MarkedUsed(keys, key)
    case Revoke(agent, _) => WithoutAgent(keys, agent)
    case Cleanup(now) => Live(keys, now)
    case _ => keys
  }

  /** What a caller learns: whether a key is accepted and as what, or what is listed. */
  datatype Observation = Acceptance(pk: Option<ProvisionKey>) | Listing(live: Store) | Nothing

  function Observe(keys: Store, op: Op): Observation {
    match op
    case Validate(key, now) =>
      var v := Check(keys, key, now);
      Acceptance(if v.Accepted? then Some(v.pk) else None)
    case List(_, clock) => Listing(LiveBy(keys, clock))
    case _ => Nothing
  }

  function Observations(keys: Store, ttl: int, ops: seq<Op>): seq<Observation>
    decreases |ops|
  {
    if ops == [] then []
    else
      var rest := Observations(Step(keys, ttl, ops[0]), ttl, ops[1..]);
      if ops[0].Cleanup? then rest else [Observe(keys, ops[0])] + rest
  }

  function WithoutCleanups(ops: seq<Op>): seq<Op>
    decreases |ops|
  {
    if ops == [] then [] else (if ops[0].Cleanup? then [] else [ops[0]]) + WithoutCleanups(ops[1..])
  }

  /** The clock does not run backwards. */
  ghost predicate Clocked(ops: seq<Op>, since: int)
    decreases |ops|
  {
    ops == [] || (since <= ops[0].now && ReadsForward(ops[0]) && Clocked(ops[1..], ops[0].now))
  }

  ghost predicate ReadsForward(op: Op) {
    op.List? ==> forall k :: op.now <= op.clock(k)
  }

  // ---- cleanup is unobservable ----

  /** kept is a store that never cleans up; the real one lacks only keys that are dead by now. */
  ghost predicate Simulates(keys: Store, kept: Store, now: int) {
    && (forall k :: k in keys ==> k in kept && kept[k] == keys[k])
    && (forall k :: k in kept && k !in keys ==> Dead(kept[k], now))
  }

  lemma SimulationStep(keys: Store, kept: Store, ttl: int, op: Op, since: int)
    requires Simulates(keys, kept, since) && since <= op.now && ReadsForward(op)
    ensures op.Cleanup? ==> Simulates(Step(keys, ttl, op), kept, op.now)
    ensures !op.Cleanup? ==> Simulates(Step(keys, ttl, op), Step(kept, ttl, op), op.now)
    ensures Observe(keys, op) == Observe(kept, op)
  {
    if op.List? {
      assert LiveBy(keys, op.clock) == LiveBy(kept, op.clock);
    }
  }

  lemma {:induction false} SimulationRun(keys: Store, kept: Store, ttl: int, ops: seq<Op>, since: int)
    requires Simulates(keys, kept, since) && Clocked(ops, since)
    ensures Observations(keys, ttl, ops) == Observations(kept, ttl, WithoutCleanups(ops))
    decreases |ops|
  {
    if ops != [] {
      var op := ops[0];
      SimulationStep(keys, kept, ttl, op, since);
      if op.Cleanup? {
        assert WithoutCleanups(ops) == WithoutCleanups(ops[1..]);
        SimulationRun(Step(keys, ttl, op), kept, ttl, ops[1..], op.now);
      } else {
        SimulationRun(Step(keys, ttl, op), Step(kept, ttl, op), ttl, ops[1..], op.now);
        assert WithoutCleanups(ops) == [op] + WithoutCleanups(ops[1..]);
        assert WithoutCleanups(ops)[1..] == WithoutCleanups(ops[1..]);
      }
    }
  }

  /** Wherever cleanups are inserted in a run, the same keys are accepted and the same keys listed. */
  lemma CleanupIsUnobservable(ttl: int, ops: seq<Op>, since: int)
    requires Clocked(ops, since)
    ensures Observations(map[], ttl, ops) == Observations(map[], ttl, WithoutCleanups(ops))
  {
    SimulationRun(map[], map[], ttl, ops, since);
  }

  /** Only the wording of a refusal can tell: after a cleanup a dead key is "not found". */
  lemma WhatCleanupChanges(keys: Store, kept: Store, now: int, key: string)
    requires Simulates(keys, kept, now)
    ensures Check(keys, key, now) != Check(kept, key, now) <==> key in kept && key !in keys
    ensures key in kept && key !in keys ==> !Check(kept, key, now).Accepted?
  {
  }

  /** Every key of the agent is one the real store has let go of. */
  predicate AllCleaned(keys: Store, kept: Store, agent: string) {
    forall k :: k in kept && kept[k].agent == agent ==> k !in keys
  }

  /**
   And Revoke's answer: it differs from that of a store that never cleans up exactly if the agent has keys
   there and cleanup has taken every one of them, all of which are dead.
   */
  lemma RevokeDiffersIff(keys: Store, kept: Store, now: int, agent: string)
    requires Simulates(keys, kept, now)
    ensures HasKeyOf(keys, agent) != HasKeyOf(kept, agent) <==> HasKeyOf(kept, agent) && AllCleaned(keys, kept, agent)
    ensures HasKeyOf(kept, agent) && AllCleaned(keys, kept, agent) ==> AllDead(kept, agent, now)
  {
    if HasKeyOf(keys, agent) {
      var k :| k in keys && keys[k].agent == agent;
      assert k in kept && kept[k].agent == agent;
    }
    if !AllCleaned(keys, kept, agent) {
      var k :| k in kept && kept[k].agent == agent && k in keys;
      assert keys[k].agent == agent;
    }
  }

  predicate AllDead(keys: Store, agent: string, now: int) {
    forall k :: k in keys && keys[k].agent == agent ==> Dead(keys[k], now)
  }

  /** So a cleanup just before Revoke changes its answer exactly for an agent that has keys, all of them dead. */
  lemma CleanupChangesRevokeIff(kept: Store, now: int, agent: string)
    ensures HasKeyOf(kept, agent) != HasKeyOf(Live(kept, now), agent) <==>
      HasKeyOf(kept, agent) && AllDead(kept, agent, now)
  {
    RevokeDiffersIff(Live(kept, now), kept, now, agent);
    assert AllCleaned(Live(kept, now), kept, agent) <==> AllDead(kept, agent, now);
  }

  /** There are such agents. */
  lemma RevokeCanTell()
    ensures var used: Store := map["sk_1" := ProvisionKey("a", 0, 9, true)];
      HasKeyOf(used, "a") && !HasKeyOf(Live(used, 5), "a")
  {
    var used: Store := map["sk_1" := ProvisionKey("a", 0, 9, true)];
    assert used["sk_1"].agent == "a";
    CleanupChangesRevokeIff(used, 5, "a");
  }

  // ---- which keys are accepted, over all runs ----

  function After(keys: Store, ttl: int, ops: seq<Op>): Store
    decreases |ops|
  {
    if ops == [] then keys else After(Step(keys, ttl, ops[0]), ttl, ops[1..])
  }

  /** One key's life as its owner sees it; cleanup does not occur in it. */
  datatype Lease = Unknown | Lease(agent: string, createdAt: int, used: bool)

  function Follow(l: Lease, key: string, op: Op): Lease {
    match op
    case Create(k, agent, now) => if k == key then Lease(agent, now, false) else l
    case MarkUsed(k, _) => if k == key && l.Lease? then l.(used := true) else l
    case Revoke(agent, _) => if l.Lease? && l.agent == agent then Unknown else l
    case _ => l
  }

  function FollowAll(l: Lease, key: string, ops: seq<Op>): Lease
    decreases |ops|
  {
    if ops == [] then l else FollowAll(Follow(l, key, ops[0]), key, ops[1..])
  }

  predicate Good(l: Lease, ttl: int, now: int) {
    l.Lease? && !l.used && now <= l.createdAt + ttl
  }

  ghost predicate Tracks(keys: Store, key: string, l: Lease, ttl: int, now: int) {
    if key in keys then
      l.Lease? && keys[key] == ProvisionKey(l.agent, l.createdAt, l.createdAt + ttl, l.used)
    else
      !Good(l, ttl, now)
  }

  lemma {:induction false} TracksRun(keys: Store, key: string, l: Lease, ttl: int, ops: seq<Op>, since: int, now: int)
    requires Tracks(keys, key, l, ttl, since) && Clocked(ops, since)
    requires since <= now && forall i :: 0 <= i < |ops| ==> ops[i].now <= now
    ensures Tracks(After(keys, ttl, ops), key, FollowAll(l, key, ops), ttl, now)
    decreases |ops|
  {
    if ops != [] {
      var op := ops[0];
      assert Tracks(Step(keys, ttl, op), key, Follow(l, key, op), ttl, op.now);
      TracksRun(Step(keys, ttl, op), key, Follow(l, key, op), ttl, ops[1..], op.now, now);
    }
  }

  /**
   After any run, with cleanups anywhere, a key is accepted exactly if it was created, has not been marked
   used nor its agent revoked since, and its lifetime has not run out.
   */
  lemma AcceptedIff(ttl: int, ops: seq<Op>, key: string, since: int, now: int)
    requires Clocked(ops, since) && since <= now && forall i :: 0 <= i < |ops| ==> ops[i].now <= now
    ensures Check(After(map[], ttl, ops), key, now).Accepted? <==> Good(FollowAll(Unknown, key, ops), ttl, now)
  {
    TracksRun(map[], key, Unknown, ttl, ops, since, now);
  }

  /**
   And List shows, as they were created, exactly the keys that are good in that sense at the reading for them.
   */
  lemma ListedIff(ttl: int, ops: seq<Op>, key: string, since: int, now: int, clock: string -> int)
    requires Clocked(ops, since) && since <= now && forall i :: 0 <= i < |ops| ==> ops[i].now <= now
    requires now <= clock(key)
    ensures var shown := Observe(After(map[], ttl, ops), List(now, clock));
      var l := FollowAll(Unknown, key, ops);
      && shown.Listing? && (key in shown.live <==> Good(l, ttl, clock(key)))
      && (key in shown.live ==> shown.live[key] == ProvisionKey(l.agent, l.createdAt, l.createdAt + ttl, false))
  {
    TracksRun(map[], key, Unknown, ttl, ops, since, now);
  }

  /** Used, expired, revoked or never created. */
  predicate Gone(keys: Store, key: string, now: int) {
    key !in keys || Dead(keys[key], now)
  }

  /** A key string is drawn at random, so it is created only once. */
  predicate NotRecreated(ops: seq<Op>, key: string) {
    forall i :: 0 <= i < |ops| && ops[i].Create? ==> ops[i].key != key
  }

  /** Once a key is gone no later operation brings it back. */
  lemma {:induction false} GoneForever(keys: Store, ttl: int, ops: seq<Op>, key: string, since: int, now: int)
    requires Gone(keys, key, since) && Clocked(ops, since) && NotRecreated(ops, key)
    requires since <= now && forall i :: 0 <= i < |ops| ==> ops[i].now <= now
    ensures Gone(After(keys, ttl, ops), key, now)
    ensures !Check(After(keys, ttl, ops), key, now).Accepted?
    decreases |ops|
  {
    if ops != [] {
      assert NotRecreated(ops[1..], key);
      GoneForever(Step(keys, ttl, ops[0]), ttl, ops[1..], key, ops[0].now, now);
    }
  }
}
