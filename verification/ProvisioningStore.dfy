/**
 The keys of the provisioning runs are those of the key store: what revocation, cleanup, creation and marking do to
 them is what the store's operations do, and a request gets as far as the store's verdicts let it.
 */
module ProvisioningStore {
  import opened Basics
  import K = KeyStore
  import opened Provisioning

  function KeyOf(w: World, k: string): K.ProvisionKey
    requires k in w.keys
  {
    K.ProvisionKey(w.keys[k].agent, w.keys[k].createdAt, w.keys[k].expiresAt, k in w.used)
  }

  /** The store as the key store has it. */
  function StoreOf(w: World): K.Store {
    map k | k in w.present && k in w.keys :: KeyOf(w, k)
  }

  /** The operation on the store that an event is, if any. */
  function OpOf(w: World, e: Event): Option<K.Op>
    requires Enabled(w, e)
  {
    match e
    case CreateKey(key, agent, _) => Some(K.Create(key, agent, w.now))
    case Revoke(agent) => Some(K.Revoke(agent, w.now))
    case Cleanup => Some(K.Cleanup(w.now))
    case Moves(r, Mark) => Some(K.MarkUsed(w.requests[r].key, w.now))
    case _ => None
  }

  /** The store's lifetime for keys. */
  predicate Lasts(w: World, e: Event, ttl: int) {
    e.CreateKey? ==> e.expiresAt == w.now + ttl
  }

  lemma MovesStore(w: World, r: nat, step: Step)
    requires Enabled(w, Moves(r, step))
    ensures StoreOf(Apply(w, Moves(r, step))) ==
      if step.Mark? then K.MarkedUsed(StoreOf(w), w.requests[r].key) else StoreOf(w)
  {
    MovesFrame(w, r, step);
    if step.Mark? {
      var key := w.requests[r].key;
      assert Apply(w, Moves(r, step)).used == if key in w.present then w.used + {key} else w.used;
    } else {
      assert Apply(w, Moves(r, step)).used == w.used;
    }
  }

  lemma CreateStore(w: World, key: string, agent: string, expiresAt: int)
    requires Enabled(w, CreateKey(key, agent, expiresAt)) && w.used <= w.keys.Keys
    ensures StoreOf(Apply(w, CreateKey(key, agent, expiresAt))) ==
      StoreOf(w)[key := K.ProvisionKey(agent, w.now, expiresAt, false)]
  {
  }

  lemma SweepStore(w: World, e: Event)
    requires e.Revoke? || e.Cleanup?
    ensures StoreOf(Apply(w, e)) ==
      if e.Revoke? then K.WithoutAgent(StoreOf(w), e.agent) else K.Live(StoreOf(w), w.now)
  {
  }

  /** Each event does to the store what the store's operation does, and every other event nothing. */
  lemma StoreStep(w: World, e: Event, ttl: int)
    requires Inv(w) && Enabled(w, e) && Lasts(w, e, ttl)
    ensures StoreOf(Apply(w, e)) == if OpOf(w, e).None? then StoreOf(w) else K.Step(StoreOf(w), ttl, OpOf(w, e).value)
  {
    match e
    case Moves(r, step) => MovesStore(w, r, step);
    case CreateKey(key, agent, expiresAt) => CreateStore(w, key, agent, expiresAt);
    case Revoke(_) => SweepStore(w, e);
    case Cleanup => SweepStore(w, e);
    case _ => assert StoreOf(Apply(w, e)) == StoreOf(w);
  }

  ghost function OpsOf(w: World, es: seq<Event>): seq<K.Op>
    requires IsRun(w, es)
    decreases |es|
  {
    if es == [] then []
    else (if OpOf(w, es[0]).Some? then [OpOf(w, es[0]).value] else []) + OpsOf(Apply(w, es[0]), es[1..])
  }

  ghost predicate AllLast(w: World, es: seq<Event>, ttl: int)
    requires IsRun(w, es)
    decreases |es|
  {
    es == [] || (Lasts(w, es[0], ttl) && AllLast(Apply(w, es[0]), es[1..], ttl))
  }

  /** So after every run the keys are those of the store after the same operations, and what is proved of it holds. */
  lemma {:induction false} StoreRun(w: World, es: seq<Event>, ttl: int)
    requires Inv(w) && IsRun(w, es) && AllLast(w, es, ttl)
    ensures StoreOf(Run(w, es)) == K.After(StoreOf(w), ttl, OpsOf(w, es))
    decreases |es|
  {
    if es != [] {
      StoreStep(w, es[0], ttl);
      StepInv(w, es[0]);
      StoreRun(Apply(w, es[0]), es[1..], ttl);
      var rest := OpsOf(Apply(w, es[0]), es[1..]);
      if OpOf(w, es[0]).Some? {
        assert ([OpOf(w, es[0]).value] + rest)[1..] == rest;
      } else {
        assert [] + rest == rest;
      }
    }
  }

  // ---- how far a request gets ----

  /** LookUp and Check let a request on exactly as the store's verdict on its key is. */
  lemma LookUpVerdict(w: World, r: nat)
    requires Inv(w) && Enabled(w, Moves(r, LookUp))
    ensures var y := Apply(w, Moves(r, LookUp)).requests[r];
      y.phase == if K.Check(StoreOf(w), y.key, w.now).NotFound? then Failed(401) else Looked
  {
  }

  lemma CheckVerdict(w: World, r: nat)
    requires Inv(w) && Enabled(w, Moves(r, Check))
    ensures var x, y := w.requests[r], Apply(w, Moves(r, Check)).requests[r];
      && (y.phase.Validated? || y.phase == Failed(401))
      && (y.phase.Validated? <==> !K.Dead(KeyOf(w, x.key), w.now))
      && (x.key in StoreOf(w) ==> (y.phase.Validated? <==> K.Check(StoreOf(w), x.key, w.now).Accepted?))
  {
  }

  lemma {:induction false} GoneStays(w: World, es: seq<Event>, key: string)
    requires IsRun(w, es) && key in w.keys && key !in w.present
    ensures key in Run(w, es).keys && key !in Run(w, es).present && Run(w, es).keys[key] == w.keys[key]
    decreases |es|
  {
    if es != [] {
      KeysGrow(w, es[0]);
      if es[0].Moves? {
        MovesFrame(w, es[0].r, es[0].step);
      }
      GoneStays(Apply(w, es[0]), es[1..], key);
    }
  }

  /** The run up to its last step, and that step. */
  lemma Last(es: seq<Event>)
    requires IsHistory(es) && es != []
    ensures var before, e := es[..|es| - 1], es[|es| - 1];
      IsHistory(before) && Enabled(After(before), e) && After(es) == Apply(After(before), e)
  {
    LastStep(Initial(), es);
  }

  /** A request's step other than its own leaves it as it is. */
  lemma Unmoved(w: World, e: Event, r: nat)
    requires Enabled(w, e) && r < |w.requests| && !(e.Moves? && e.r == r)
    ensures r < |Apply(w, e).requests| && Apply(w, e).requests[r] == w.requests[r]
  {
    if e.Moves? {
      MovesFrame(w, e.r, e.step);
    } else {
      OthersFrame(w, e);
    }
  }

  lemma NewcomerAsks(w: World, e: Event, r: nat)
    requires Enabled(w, e) && |w.requests| <= r < |Apply(w, e).requests|
    ensures Apply(w, e).requests[r].phase.Asked?
  {
    if e.Moves? {
      MovesFrame(w, e.r, e.step);
    } else {
      OthersFrame(w, e);
    }
  }

  /** At step i request r takes this step. */
  ghost predicate StepsAt(es: seq<Event>, i: nat, r: nat, step: Step) {
    i < |es| && es[i] == Moves(r, step) && IsHistory(es[..i]) && r < |After(es[..i]).requests|
  }

  lemma StepsAtLonger(es: seq<Event>, i: nat, r: nat, step: Step)
    requires es != [] && StepsAt(es[..|es| - 1], i, r, step)
    ensures StepsAt(es, i, r, step) && es[..|es| - 1][..i] == es[..i]
  {
    assert es[..|es| - 1][..i] == es[..i];
  }

  // ---- why a request fails ----

  /** What a failing step says and why it fails. */
  ghost predicate FailsFor(w: World, r: nat, step: Step, code: int)
    requires r < |w.requests|
  {
    var x := w.requests[r];
    match step
    case LookUp => code == 401 && x.key !in w.present
    case Check => code == 401 && x.key in w.keys && (x.key in w.used || w.now > w.keys[x.key].expiresAt)
    case TestKey => code == 409 && x.key in w.keys && KeyFile(w.keys[x.key].agent) in w.files
    case GenerateFails => code == 500
    case EncodeFails => code == 500
    case _ => false
  }

  lemma FailsNow(w: World, r: nat, step: Step)
    requires Enabled(w, Moves(r, step)) && Apply(w, Moves(r, step)).requests[r].phase.Failed?
    ensures FailsFor(w, r, step, Apply(w, Moves(r, step)).requests[r].phase.code)
  {
  }

  lemma FailedIsOver(w: World, r: nat, step: Step)
    requires r < |w.requests| && w.requests[r].phase.Failed?
    ensures !Enabled(w, Moves(r, step))
  {
  }

  /**
   Every failed request failed at one step of its own: 401 because the store did not hold the key, or the key was
   used or expired; 409 because the certificate exists; 500 because creating or encoding it failed.
   */
  lemma {:induction false} WhyFailed(es: seq<Event>, r: nat) returns (i: nat, step: Step)
    requires IsHistory(es) && r < |After(es).requests| && After(es).requests[r].phase.Failed?
    ensures StepsAt(es, i, r, step) && FailsFor(After(es[..i]), r, step, After(es).requests[r].phase.code)
    decreases |es|
  {
    Last(es);
    var before, e := es[..|es| - 1], es[|es| - 1];
    var w := After(before);
    if r >= |w.requests| {
      NewcomerAsks(w, e, r);
    }
    if w.requests[r].phase.Failed? {
      if e.Moves? && e.r == r {
        FailedIsOver(w, r, e.step);
      }
      Unmoved(w, e, r);
      i, step := WhyFailed(before, r);
      StepsAtLonger(es, i, r, step);
    } else {
      if !(e.Moves? && e.r == r) {
        Unmoved(w, e, r);
      }
      FailsNow(w, r, e.step);
      i, step := |es| - 1, e.step;
    }
  }

  // ---- a revoked key ----

  lemma LookUpComesFirst(w: World, r: nat, step: Step)
    requires Enabled(w, Moves(r, step)) && ReqOk(w, r, w.requests[r])
    requires !PastLookUp(w.requests[r].phase) && !w.requests[r].created && PastLookUp(Apply(w, Moves(r, step)).requests[r].phase)
    ensures step.LookUp? && w.requests[r].key in w.present
  {
  }

  /** Whoever got past the lookup looked its key up while the store held it. */
  lemma {:induction false} WasLookedUp(es: seq<Event>, r: nat) returns (i: nat)
    requires IsHistory(es) && r < |After(es).requests| && PastLookUp(After(es).requests[r].phase)
    ensures StepsAt(es, i, r, LookUp) && After(es[..i]).requests[r].key == After(es).requests[r].key
    ensures After(es).requests[r].key in After(es[..i]).present
    decreases |es|
  {
    Last(es);
    var before, e := es[..|es| - 1], es[|es| - 1];
    var w := After(before);
    Reached(before);
    if r >= |w.requests| {
      NewcomerAsks(w, e, r);
    }
    assert ReqOk(w, r, w.requests[r]);
    if e.Moves? && e.r == r {
      MovesFrame(w, r, e.step);
    } else {
      Unmoved(w, e, r);
    }
    if PastLookUp(w.requests[r].phase) {
      i := WasLookedUp(before, r);
      StepsAtLonger(es, i, r, LookUp);
    } else {
      LookUpComesFirst(w, r, e.step);
      i := |es| - 1;
    }
  }

  lemma {:induction false} Cut(es: seq<Event>, i: nat)
    requires IsHistory(es) && i <= |es|
    ensures IsHistory(es[..i]) && IsRun(After(es[..i]), es[i..]) && Run(After(es[..i]), es[i..]) == After(es)
    decreases |es|
  {
    if i == |es| {
      assert es[..i] == es && es[i..] == [];
    } else {
      Last(es);
      var before, e := es[..|es| - 1], es[|es| - 1];
      Cut(before, i);
      assert before[..i] == es[..i];
      Snoc(After(es[..i]), before[i..], e);
      assert before[i..] + [e] == es[i..];
    }
  }

  /**
   A request that looks its key up after the key's agent was revoked does not get past that: it never succeeds, and
   if it has taken its lookup it has failed with 401.
   */
  lemma RevokedIsRefused(es: seq<Event>, i: nat, l: nat, r: nat)
    requires IsHistory(es) && i < l < |es| && StepsAt(es, l, r, LookUp)
    requires es[i].Revoke? && IsHistory(es[..i])
    requires var k := After(es[..l]).requests[r].key; k in After(es[..i]).keys && After(es[..i]).keys[k].agent == es[i].agent
    ensures r < |After(es).requests| && After(es).requests[r].phase == Failed(401)
  {
    var k := After(es[..l]).requests[r].key;
    RevokedIsGone(es, i, l, k);
    LookUpFails(es, l, r);
    Cut(es, l + 1);
    assert es[..l + 1] == es[..l] + [es[l]];
    FailedStays(After(es[..l + 1]), es[l + 1..], r);
  }

  lemma RevokedIsGone(es: seq<Event>, i: nat, l: nat, k: string)
    requires IsHistory(es) && i < l < |es| && es[i].Revoke? && IsHistory(es[..i]) && IsHistory(es[..l])
    requires k in After(es[..i]).keys && After(es[..i]).keys[k].agent == es[i].agent
    ensures k !in After(es[..l]).present
  {
    Cut(es[..l], i + 1);
    assert es[..l][..i + 1] == es[..i + 1];
    Last(es[..i + 1]);
    assert es[..i + 1][..i] == es[..i];
    GoneStays(After(es[..i + 1]), es[..l][i + 1..], k);
  }

  lemma LookUpFails(es: seq<Event>, l: nat, r: nat)
    requires IsHistory(es) && StepsAt(es, l, r, LookUp) && After(es[..l]).requests[r].key !in After(es[..l]).present
    ensures IsHistory(es[..l + 1]) && r < |After(es[..l + 1]).requests| && After(es[..l + 1]).requests[r].phase == Failed(401)
  {
    Cut(es, l + 1);
    Last(es[..l + 1]);
    assert es[..l + 1][..l] == es[..l];
  }

  lemma {:induction false} FailedStays(w: World, es: seq<Event>, r: nat)
    requires IsRun(w, es) && r < |w.requests| && w.requests[r].phase.Failed?
    ensures r < |Run(w, es).requests| && Run(w, es).requests[r] == w.requests[r]
    decreases |es|
  {
    if es != [] {
      if es[0].Moves? && es[0].r == r {
        FailedIsOver(w, r, es[0].step);
      }
      Unmoved(w, es[0], r);
      FailedStays(Apply(w, es[0]), es[1..], r);
    }
  }

  // ---- files and time ----

  /** The event writes this file: an administrator's, or a request's for its key's agent. */
  predicate WritesFile(w: World, e: Event, f: File) {
    || e == Writes(f)
    || (e.Moves? && e.r < |w.requests| && w.requests[e.r].key in w.keys &&
        ((e.step.WriteCert? && f == CertFile(w.keys[w.requests[e.r].key].agent)) ||
         (e.step.WriteKey? && f == KeyFile(w.keys[w.requests[e.r].key].agent))))
  }

  /** The last thing done to the file was to write it. */
  ghost predicate LastWritten(es: seq<Event>, f: File)
    requires IsHistory(es)
    decreases |es|
  {
    es != [] &&
    var before, e := es[..|es| - 1], es[|es| - 1];
    Prefix(es, |es| - 1);
    WritesFile(After(before), e, f) || (e != Removes(f) && LastWritten(before, f))
  }

  lemma {:induction false} FilesAreAsLastWritten(es: seq<Event>, f: File)
    requires IsHistory(es)
    ensures f in After(es).files <==> LastWritten(es, f)
    decreases |es|
  {
    if es != [] {
      Last(es);
      FilesAreAsLastWritten(es[..|es| - 1], f);
      FileStep(After(es[..|es| - 1]), es[|es| - 1], f);
    }
  }

  lemma FileStep(w: World, e: Event, f: File)
    requires Enabled(w, e)
    ensures f in Apply(w, e).files <==> WritesFile(w, e, f) || (e != Removes(f) && f in w.files)
  {
  }

  function Elapsed(es: seq<Event>): nat {
    if es == [] then 0 else Elapsed(es[..|es| - 1]) + if es[|es| - 1].Tick? then es[|es| - 1].dt else 0
  }

  lemma {:induction false} ClockRuns(es: seq<Event>)
    requires IsHistory(es)
    ensures After(es).now == Elapsed(es)
    decreases |es|
  {
    if es != [] {
      Last(es);
      ClockRuns(es[..|es| - 1]);
      ClockStep(After(es[..|es| - 1]), es[|es| - 1]);
    }
  }

  lemma ClockStep(w: World, e: Event)
    requires Enabled(w, e)
    ensures Apply(w, e).now == w.now + if e.Tick? then e.dt else 0
  {
  }
}
