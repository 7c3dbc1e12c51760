/**
 Concurrent Provision requests.

 A request looks its key up, then (outside the store's lock) checks the key it found, then under the
 certificate mutex creates the agent's certificate unless both its files exist, and only then marks the key
 used.  Between any two of these steps other requests, key creation, revocation and cleanup may happen, and so
 may the administrator's creation and deletion of certificates, which do not take the mutex and write or
 remove one file at a time.
 */
module Provisioning {
  import opened Basics

  /** A key object; the store's map may have let go of it while a request still holds it. */
  datatype Key = Key(agent: string, createdAt: int, expiresAt: int)

  datatype File = CertFile(agent: string) | KeyFile(agent: string)

  datatype Phase =
    | Asked
    | Looked                 // has the key object
    | Validated
    | Locked                 // owns the certificate mutex
    | CertSeen               // found the certificate's file; looks for the key's
    | Generating             // found one of them missing
    | WroteCert
    | Created                // mutex released
    | Success
    | Failed(code: int)

  /**
   checked, tested, marked: when the request passed the check of its key, found a file missing, and marked
   its key used.  epoch: how many of the agent's files had been removed when it found one missing.
   stored: whether the store still held the key when it was marked.
   */
  datatype Req = Req(
    key: string, phase: Phase, created: bool, checked: nat, tested: nat, epoch: nat, marked: nat, stored: bool)

  datatype World = World(
    keys: map<string, Key>,          // every key ever created
    present: set<string>,            // those in the store's map
    used: set<string>,               // those whose Used flag is set
    files: set<File>,
    removals: map<string, nat>,      // by agent
    mu: Option<nat>,                 // the request that owns the certificate mutex
    requests: seq<Req>,
    now: int,
    stamp: nat)                      // number of steps so far

  datatype Step =
    | LookUp
    | Check
    | Lock
    | TestCert
    | TestKey
    | WriteCert
    | WriteKey
    | GenerateFails
    | EncodeFails            // PEM encoding or reading the CA certificate
    | Mark                   // MarkUsed, then 200

  datatype Event =
    | Tick(dt: nat)
    | CreateKey(key: string, agent: string, expiresAt: int)
    | Revoke(agent: string)
    | Cleanup
    | Ask(key: string)
    | Moves(r: nat, step: Step)
    | Writes(file: File)             // part of an administrator's creation of a certificate
    | Removes(file: File)            // part of a deletion

  function Initial(): World {
    World(map[], {}, {}, {}, map[], None, [], 0, 0)
  }

  function Epoch(w: World, agent: string): nat {
    if agent in w.removals then w.removals[agent] else 0
  }

  predicate CertExists(w: World, agent: string) {
    CertFile(agent) in w.files && KeyFile(agent) in w.files
  }

  predicate OwnsMutex(p: Phase) {
    p.Locked? || p.CertSeen? || p.Generating? || p.WroteCert?
  }

  predicate StepEnabled(w: World, x: Req, step: Step) {
    match step
    case LookUp => x.phase.Asked?
    case Check => x.phase.Looked? && x.key in w.keys
    case Lock => x.phase.Validated? && w.mu.None?
    case TestCert => x.phase.Locked? && x.key in w.keys
    case TestKey => x.phase.CertSeen? && x.key in w.keys
    case WriteCert => x.phase.Generating? && x.key in w.keys
    case WriteKey => x.phase.WroteCert? && x.key in w.keys
    case GenerateFails => x.phase.Generating? || x.phase.WroteCert?
    case EncodeFails => x.phase.Created?
    case Mark => x.phase.Created?
  }

  predicate Enabled(w: World, e: Event) {
    match e
    case CreateKey(key, _, _) => key !in w.keys
    case Moves(r, step) => r < |w.requests| && StepEnabled(w, w.requests[r], step)
    case _ => true
  }

  function SetReq(w: World, r: nat, x: Req): World
    requires r < |w.requests|
  {
    w.(requests := w.requests[r := x])
  }

  /** The request has found a file missing. */
  function Misses(w: World, x: Req): Req
    requires x.key in w.keys
  {
    x.(phase := Generating, tested := w.stamp, epoch := Epoch(w, w.keys[x.key].agent))
  }

  function ApplyStep(w: World, r: nat, step: Step): World
    requires r < |w.requests| && StepEnabled(w, w.requests[r], step)
  {
    var x := w.requests[r];
    match step
    case LookUp => SetReq(w, r, x.(phase := if x.key in w.present then Looked else Failed(401)))
    case Check =>
      if x.key in w.used || w.now > w.keys[x.key].expiresAt then SetReq(w, r, x.(phase := Failed(401)))
      else SetReq(w, r, x.(phase := Validated, checked := w.stamp))
    case Lock => SetReq(w, r, x.(phase := Locked)).(mu := Some(r))
    case TestCert => SetReq(w, r, if CertFile(w.keys[x.key].agent) in w.files then x.(phase := CertSeen) else Misses(w, x))
    case TestKey =>
      if KeyFile(w.keys[x.key].agent) in w.files then SetReq(w, r, x.(phase := Failed(409))).(mu := None)
      else SetReq(w, r, Misses(w, x))
    case WriteCert => SetReq(w, r, x.(phase := WroteCert)).(files := w.files + {CertFile(w.keys[x.key].agent)})
    case WriteKey =>
      SetReq(w, r, x.(phase := Created, created := true)).(
        files := w.files + {KeyFile(w.keys[x.key].agent)}, mu := None)
    case GenerateFails => SetReq(w, r, x.(phase := Failed(500))).(mu := None)
    case EncodeFails => SetReq(w, r, x.(phase := Failed(500)))
    case Mark =>
      SetReq(w, r, x.(phase := Success, marked := w.stamp, stored := x.key in w.present)).(
        used := if x.key in w.present then w.used + {x.key} else w.used)
  }

  function Effect(w: World, e: Event): World
    requires Enabled(w, e)
  {
    match e
    case Tick(dt) => w.(now := w.now + dt)
    case CreateKey(key, agent, expiresAt) => w.(keys := w.keys[key := Key(agent, w.now, expiresAt)], present := w.present + {key})
    case Revoke(agent) => w.(present := set k | k in w.present && k in w.keys && w.keys[k].agent != agent)
    case Cleanup => w.(present := set k | k in w.present && k in w.keys && k !in w.used && w.now <= w.keys[k].expiresAt)
    case Ask(key) => w.(requests := w.requests + [Req(key, Asked, false, 0, 0, 0, 0, false)])
    case Moves(r, step) => ApplyStep(w, r, step)
    case Writes(file) => w.(files := w.files + {file})
    case Removes(file) =>
      w.(files := w.files - {file}, removals := w.removals[file.agent := Epoch(w, file.agent) + 1])
  }

  function Apply(w: World, e: Event): World
    requires Enabled(w, e)
  {
    Effect(w, e).(stamp := w.stamp + 1)
  }

  ghost predicate IsRun(w: World, es: seq<Event>)
    decreases |es|
  {
    es == [] || (Enabled(w, es[0]) && IsRun(Apply(w, es[0]), es[1..]))
  }

  ghost function Run(w: World, es: seq<Event>): World
    requires IsRun(w, es)
    decreases |es|
  {
    if es == [] then w else Run(Apply(w, es[0]), es[1..])
  }

  // ---- invariant ----

  predicate PastLookUp(p: Phase) {
    !p.Asked? && !p.Failed?
  }

  predicate PastCheck(x: Req) {
    x.created || (PastLookUp(x.phase) && !x.phase.Looked?)
  }

  predicate PastTest(x: Req) {
    x.created || x.phase.Generating? || x.phase.WroteCert?
  }

  predicate ReqOk(w: World, r: nat, x: Req) {
    && ((PastLookUp(x.phase) || x.created) ==> x.key in w.keys)
    && ((x.phase.Created? || x.phase.Success?) ==> x.created)
    && (x.created ==> x.phase.Created? || x.phase.Success? || x.phase.Failed?)
    && (PastCheck(x) ==> x.checked < w.stamp)
    && (PastTest(x) ==> x.checked < x.tested < w.stamp)
    && (x.phase.Success? ==> x.tested < x.marked < w.stamp && (x.stored ==> x.key in w.used))
    && (OwnsMutex(x.phase) <==> w.mu == Some(r))
  }

  /** The certificate this request created, or is creating, is there unless one of its files was removed since. */
  predicate FilesOk(w: World, x: Req)
    requires x.key in w.keys
  {
    var a := w.keys[x.key].agent;
    && (PastTest(x) ==> x.epoch <= Epoch(w, a))
    && (x.created && x.epoch == Epoch(w, a) ==> CertExists(w, a))
    && (x.phase.WroteCert? && x.epoch == Epoch(w, a) ==> CertFile(a) in w.files)
  }

  predicate SameAgent(w: World, x: Req, y: Req) {
    x.key in w.keys && y.key in w.keys && w.keys[x.key].agent == w.keys[y.key].agent
  }

  /**
   Two requests that created a certificate of one agent did so in different epochs, the later in a later one;
   and where one has marked a key the store held, nobody passes that key's check any more.
   */
  predicate PairOk(w: World, x: Req, y: Req) {
    && (x.created && y.created && SameAgent(w, x, y) ==> x.epoch != y.epoch)
    && (x.created && (y.phase.Generating? || y.phase.WroteCert?) && SameAgent(w, x, y) ==> x.epoch < y.epoch)
    && (x.phase.Success? && x.stored && y.key == x.key && PastCheck(y) ==> y.checked < x.marked)
  }

  ghost predicate UsedOk(w: World) {
    forall k :: k in w.used ==> k in w.keys && exists r: nat :: MarkedBy(w, r, k)
  }

  predicate MarkedBy(w: World, r: nat, k: string) {
    r < |w.requests| && w.requests[r].phase.Success? && w.requests[r].key == k && w.requests[r].created
  }

  ghost predicate RequestsOk(w: World) {
    && w.present <= w.keys.Keys
    && (w.mu.Some? ==> w.mu.value < |w.requests|)
    && (forall r: nat :: r < |w.requests| ==> ReqOk(w, r, w.requests[r]))
  }

  ghost predicate CertsOk(w: World) {
    forall r: nat :: r < |w.requests| && w.requests[r].key in w.keys ==> FilesOk(w, w.requests[r])
  }

  ghost predicate PairsOk(w: World) {
    forall r: nat, q: nat :: r < |w.requests| && q < |w.requests| && r != q ==> PairOk(w, w.requests[r], w.requests[q])
  }

  ghost predicate Inv(w: World) {
    RequestsOk(w) && CertsOk(w) && PairsOk(w) && UsedOk(w)
  }

  // ---- what a step changes ----

  /** A request's step changes only that request, the files of its agent, the mutex and perhaps its key's flag. */
  lemma MovesFrame(w: World, r: nat, step: Step)
    requires Enabled(w, Moves(r, step))
    ensures var v := Apply(w, Moves(r, step));
      && v.keys == w.keys && v.present == w.present && v.removals == w.removals && w.files <= v.files
      && v.stamp == w.stamp + 1 && |v.requests| == |w.requests| && v.requests[r].key == w.requests[r].key
      && (v.used == w.used || (step.Mark? && v.used == w.used + {w.requests[r].key} && w.requests[r].key in w.present))
      && forall q :: 0 <= q < |w.requests| && q != r ==> v.requests[q] == w.requests[q]
  {
  }

  /** Any other step leaves the requests alone and at most adds one. */
  lemma OthersFrame(w: World, e: Event)
    requires Enabled(w, e) && !e.Moves?
    ensures var v := Apply(w, e);
      && v.used == w.used && v.mu == w.mu && v.stamp == w.stamp + 1
      && (v.requests == w.requests || (e.Ask? && v.requests == w.requests + [Req(e.key, Asked, false, 0, 0, 0, 0, false)]))
      && (w.present <= w.keys.Keys ==> v.present <= v.keys.Keys)
      && (forall k :: k in w.keys ==> k in v.keys && v.keys[k] == w.keys[k])
      && (v.keys == w.keys || (e.CreateKey? && v.keys == w.keys[e.key := Key(e.agent, w.now, e.expiresAt)]))
  {
  }

  lemma KeysGrow(w: World, e: Event)
    requires Enabled(w, e)
    ensures var v := Apply(w, e);
      v.stamp == w.stamp + 1 && w.used <= v.used && |w.requests| <= |v.requests| &&
      forall k :: k in w.keys ==> k in v.keys && v.keys[k] == w.keys[k]
  {
    if e.Moves? {
      MovesFrame(w, e.r, e.step);
    } else {
      OthersFrame(w, e);
    }
  }

  // ---- every step keeps the invariant ----

  predicate IsEarly(step: Step) {
    step.LookUp? || step.Check? || step.Lock? || step.TestCert? || step.TestKey?
  }

  lemma EarlyMoves(w: World, r: nat, step: Step)
    requires IsEarly(step) && Enabled(w, Moves(r, step)) && ReqOk(w, r, w.requests[r]) && w.present <= w.keys.Keys
    ensures ReqOk(Apply(w, Moves(r, step)), r, Apply(w, Moves(r, step)).requests[r])
  {
  }

  lemma LateMoves(w: World, r: nat, step: Step)
    requires !IsEarly(step) && Enabled(w, Moves(r, step)) && ReqOk(w, r, w.requests[r])
    ensures ReqOk(Apply(w, Moves(r, step)), r, Apply(w, Moves(r, step)).requests[r])
  {
  }

  lemma MutexMoves(w: World, r: nat, step: Step)
    requires Enabled(w, Moves(r, step)) && (OwnsMutex(w.requests[r].phase) <==> w.mu == Some(r))
    ensures var v := Apply(w, Moves(r, step));
      && (v.mu == w.mu || v.mu == None || v.mu == Some(r))
      && (OwnsMutex(w.requests[r].phase) || w.mu == None || v.mu == w.mu)
  {
  }

  lemma ReqStays(w: World, v: World, r: nat, x: Req)
    requires ReqOk(w, r, x) && w.stamp <= v.stamp && w.used <= v.used && w.keys.Keys <= v.keys.Keys
    requires w.mu == Some(r) <==> v.mu == Some(r)
    ensures ReqOk(v, r, x)
  {
  }

  lemma RequestsStep(w: World, e: Event)
    requires RequestsOk(w) && Enabled(w, e)
    ensures RequestsOk(Apply(w, e))
  {
    var v := Apply(w, e);
    KeysGrow(w, e);
    if e.Moves? {
      MovesFrame(w, e.r, e.step);
      assert ReqOk(w, e.r, w.requests[e.r]);
      if IsEarly(e.step) { EarlyMoves(w, e.r, e.step); } else { LateMoves(w, e.r, e.step); }
      MutexMoves(w, e.r, e.step);
    } else {
      OthersFrame(w, e);
    }
    forall r: nat | r < |v.requests|
      ensures ReqOk(v, r, v.requests[r])
    {
      if r < |w.requests| && !(e.Moves? && e.r == r) {
        assert ReqOk(w, r, w.requests[r]);
        ReqStays(w, v, r, w.requests[r]);
      }
    }
  }

  /** Files of this request's agent only appear, or else its epoch moves on. */
  lemma FilesStay(w: World, v: World, x: Req)
    requires x.key in w.keys && x.key in v.keys && v.keys[x.key] == w.keys[x.key] && FilesOk(w, x)
    requires var a := w.keys[x.key].agent;
      Epoch(w, a) < Epoch(v, a) || (Epoch(v, a) == Epoch(w, a) && forall f: File :: f.agent == a && f in w.files ==> f in v.files)
    ensures FilesOk(v, x)
  {
  }

  lemma FilesMove(w: World, r: nat, step: Step)
    requires Enabled(w, Moves(r, step)) && ReqOk(w, r, w.requests[r])
    requires w.requests[r].key in w.keys && FilesOk(w, w.requests[r])
    ensures var v := Apply(w, Moves(r, step)); v.requests[r].key in v.keys && FilesOk(v, v.requests[r])
  {
  }

  lemma FilesOfOthers(w: World, e: Event, a: string)
    requires Enabled(w, e)
    ensures var v := Apply(w, e);
      Epoch(w, a) < Epoch(v, a) || (Epoch(v, a) == Epoch(w, a) && forall f: File :: f.agent == a && f in w.files ==> f in v.files)
  {
    if e.Moves? {
      MovesFrame(w, e.r, e.step);
    }
  }

  lemma CertsStep(w: World, e: Event)
    requires RequestsOk(w) && CertsOk(w) && Enabled(w, e)
    ensures CertsOk(Apply(w, e))
  {
    var v := Apply(w, e);
    KeysGrow(w, e);
    if e.Moves? {
      MovesFrame(w, e.r, e.step);
    } else {
      OthersFrame(w, e);
    }
    forall r: nat | r < |v.requests| && v.requests[r].key in v.keys
      ensures FilesOk(v, v.requests[r])
    {
      if r < |w.requests| {
        assert ReqOk(w, r, w.requests[r]);
        if w.requests[r].key in w.keys {
          assert FilesOk(w, w.requests[r]);
          if e.Moves? && e.r == r {
            FilesMove(w, r, e.step);
          } else {
            FilesOfOthers(w, e, w.keys[w.requests[r].key].agent);
            FilesStay(w, v, w.requests[r]);
          }
        }
      }
    }
  }

  lemma PairStays(w: World, v: World, x: Req, y: Req)
    requires PairOk(w, x, y)
    requires forall k :: k in w.keys ==> k in v.keys && v.keys[k] == w.keys[k]
    requires x.created ==> x.key in w.keys
    requires PastTest(y) ==> y.key in w.keys
    ensures PairOk(v, x, y)
  {
  }

  /** The request that moves as the one that created or marked, against one that does not move. */
  lemma FirstMoves(w: World, r: nat, step: Step, y: Req)
    requires Enabled(w, Moves(r, step)) && ReqOk(w, r, w.requests[r])
    requires PairOk(w, w.requests[r], y) && PairOk(w, y, w.requests[r])
    requires PastCheck(y) ==> y.checked < w.stamp
    requires (y.phase.Generating? || y.phase.WroteCert?) ==> !OwnsMutex(w.requests[r].phase)
    ensures PairOk(Apply(w, Moves(r, step)), Apply(w, Moves(r, step)).requests[r], y)
  {
    MovesFrame(w, r, step);
  }

  /** The request that moves as the later one. */
  lemma SecondMoves(w: World, r: nat, step: Step, x: Req)
    requires Enabled(w, Moves(r, step)) && ReqOk(w, r, w.requests[r])
    requires PairOk(w, x, w.requests[r]) && PairOk(w, w.requests[r], x)
    requires x.phase.Success? && x.stored ==> x.key in w.used
    requires x.key in w.keys ==> FilesOk(w, x)
    ensures PairOk(Apply(w, Moves(r, step)), x, Apply(w, Moves(r, step)).requests[r])
  {
    MovesFrame(w, r, step);
  }

  lemma PairMoves(w: World, r: nat, step: Step, q: nat)
    requires RequestsOk(w) && CertsOk(w) && PairsOk(w)
    requires Enabled(w, Moves(r, step)) && q < |w.requests| && q != r
    ensures var v := Apply(w, Moves(r, step));
      PairOk(v, v.requests[r], w.requests[q]) && PairOk(v, w.requests[q], v.requests[r])
  {
    assert ReqOk(w, r, w.requests[r]) && ReqOk(w, q, w.requests[q]);
    assert PairOk(w, w.requests[r], w.requests[q]) && PairOk(w, w.requests[q], w.requests[r]);
    FirstMoves(w, r, step, w.requests[q]);
    SecondMoves(w, r, step, w.requests[q]);
  }

  lemma PairsStep(w: World, e: Event)
    requires RequestsOk(w) && CertsOk(w) && PairsOk(w) && Enabled(w, e)
    ensures PairsOk(Apply(w, e))
  {
    var v := Apply(w, e);
    KeysGrow(w, e);
    if e.Moves? {
      MovesFrame(w, e.r, e.step);
    } else {
      OthersFrame(w, e);
    }
    forall r: nat, q: nat | r < |v.requests| && q < |v.requests| && r != q
      ensures PairOk(v, v.requests[r], v.requests[q])
    {
      if e.Moves? && e.r == r {
        PairMoves(w, r, e.step, q);
      } else if e.Moves? && e.r == q {
        PairMoves(w, q, e.step, r);
      } else if r < |w.requests| && q < |w.requests| {
        assert PairOk(w, w.requests[r], w.requests[q]) && ReqOk(w, r, w.requests[r]) && ReqOk(w, q, w.requests[q]);
        PairStays(w, v, w.requests[r], w.requests[q]);
      }
    }
  }

  lemma SuccessStays(w: World, e: Event, r: nat)
    requires Enabled(w, e) && r < |w.requests| && w.requests[r].phase.Success?
    ensures r < |Apply(w, e).requests| && Apply(w, e).requests[r] == w.requests[r]
  {
    if e.Moves? {
      MovesFrame(w, e.r, e.step);
    } else {
      OthersFrame(w, e);
    }
  }

  lemma UsedStep(w: World, e: Event)
    requires RequestsOk(w) && UsedOk(w) && Enabled(w, e)
    ensures UsedOk(Apply(w, e))
  {
    var v := Apply(w, e);
    KeysGrow(w, e);
    if e.Moves? {
      MovesFrame(w, e.r, e.step);
    } else {
      OthersFrame(w, e);
    }
    forall k | k in v.used
      ensures k in v.keys && exists r: nat :: MarkedBy(v, r, k)
    {
      if k in w.used {
        var r: nat :| MarkedBy(w, r, k);
        SuccessStays(w, e, r);
        assert MarkedBy(v, r, k);
      } else {
        assert ReqOk(w, e.r, w.requests[e.r]);
        assert MarkedBy(v, e.r, k);
      }
    }
  }

  lemma StepInv(w: World, e: Event)
    requires Inv(w) && Enabled(w, e)
    ensures Inv(Apply(w, e))
  {
    RequestsStep(w, e);
    CertsStep(w, e);
    PairsStep(w, e);
    UsedStep(w, e);
  }

  lemma {:induction false} RunInv(w: World, es: seq<Event>)
    requires Inv(w) && IsRun(w, es)
    ensures Inv(Run(w, es))
    decreases |es|
  {
    if es != [] {
      StepInv(w, es[0]);
      RunInv(Apply(w, es[0]), es[1..]);
    }
  }

  // ---- what this says of every run ----

  ghost predicate IsHistory(es: seq<Event>) {
    IsRun(Initial(), es)
  }

  ghost function After(es: seq<Event>): World
    requires IsHistory(es)
  {
    Run(Initial(), es)
  }

  lemma Reached(es: seq<Event>)
    requires IsHistory(es)
    ensures Inv(After(es))
  {
    RunInv(Initial(), es);
  }

  lemma {:induction false} Snoc(w: World, es: seq<Event>, e: Event)
    requires IsRun(w, es) && Enabled(Run(w, es), e)
    ensures IsRun(w, es + [e]) && Run(w, es + [e]) == Apply(Run(w, es), e)
    decreases |es|
  {
    if es == [] {
      assert [e][1..] == [];
    } else {
      assert (es + [e])[1..] == es[1..] + [e];
      Snoc(Apply(w, es[0]), es[1..], e);
    }
  }

  lemma {:induction false} LastStep(w: World, es: seq<Event>)
    requires IsRun(w, es) && es != []
    ensures var before, e := es[..|es| - 1], es[|es| - 1];
      IsRun(w, before) && Enabled(Run(w, before), e) && Run(w, es) == Apply(Run(w, before), e)
    decreases |es|
  {
    var before := es[..|es| - 1];
    if |es| > 1 {
      LastStep(Apply(w, es[0]), es[1..]);
      assert es[1..][..|es| - 2] == before[1..];
    }
  }

  lemma {:induction false} Prefix(es: seq<Event>, k: nat)
    requires IsHistory(es) && k <= |es|
    ensures IsHistory(es[..k])
    decreases |es|
  {
    if k < |es| {
      LastStep(Initial(), es);
      Prefix(es[..|es| - 1], k);
      assert es[..|es| - 1][..k] == es[..k];
    } else {
      assert es[..k] == es;
    }
  }

  /** How often a file of the agent was removed. */
  function Removals(es: seq<Event>, agent: string): nat {
    if es == [] then 0
    else Removals(es[..|es| - 1], agent) + if IsRemoval(es[|es| - 1], agent) then 1 else 0
  }

  predicate IsRemoval(e: Event, agent: string) {
    e.Removes? && e.file.agent == agent
  }

  lemma {:induction false} EpochCounts(es: seq<Event>, agent: string)
    requires IsHistory(es)
    ensures Epoch(After(es), agent) == Removals(es, agent) && After(es).stamp == |es|
  {
    if es != [] {
      LastStep(Initial(), es);
      EpochCounts(es[..|es| - 1], agent);
      EpochStep(After(es[..|es| - 1]), es[|es| - 1], agent);
    }
  }

  lemma EpochStep(w: World, e: Event, agent: string)
    requires Enabled(w, e)
    ensures Epoch(Apply(w, e), agent) == Epoch(w, agent) + if IsRemoval(e, agent) then 1 else 0
    ensures Apply(w, e).stamp == w.stamp + 1
  {
    if e.Moves? {
      MovesFrame(w, e.r, e.step);
    }
  }

  lemma {:induction false} FindRemoval(es: seq<Event>, i: nat, j: nat, agent: string) returns (d: nat)
    requires i <= j <= |es| && Removals(es[..i], agent) < Removals(es[..j], agent)
    ensures i <= d < j && IsRemoval(es[d], agent)
    decreases j
  {
    assert es[..j][..j - 1] == es[..j - 1];
    if IsRemoval(es[j - 1], agent) && i <= j - 1 {
      d := j - 1;
    } else {
      d := FindRemoval(es, i, j - 1, agent);
    }
  }

  lemma {:induction false} RemovalsGrow(es: seq<Event>, i: nat, j: nat, agent: string)
    requires i <= j <= |es|
    ensures Removals(es[..i], agent) <= Removals(es[..j], agent)
    decreases j
  {
    if i < j {
      assert es[..j][..j - 1] == es[..j - 1];
      RemovalsGrow(es, i, j - 1, agent);
    }
  }

  // ---- what a request has recorded is what happened ----

  ghost predicate CheckHappened(es: seq<Event>, r: nat, x: Req) {
    x.checked < |es| && es[x.checked] == Moves(r, Check)
  }

  ghost predicate TestHappened(es: seq<Event>, r: nat, x: Req, agent: string) {
    && x.tested < |es| && (es[x.tested] == Moves(r, TestCert) || es[x.tested] == Moves(r, TestKey))
    && x.epoch == Removals(es[..x.tested], agent)
  }

  ghost predicate MarkHappened(es: seq<Event>, r: nat, x: Req)
    requires IsHistory(es)
  {
    && x.marked < |es| && es[x.marked] == Moves(r, Mark)
    && IsHistory(es[..x.marked]) && x.stored == (x.key in After(es[..x.marked]).present)
  }

  ghost predicate Recorded(es: seq<Event>, r: nat)
    requires IsHistory(es) && r < |After(es).requests|
  {
    var w := After(es);
    var x := w.requests[r];
    && (PastCheck(x) ==> CheckHappened(es, r, x))
    && (PastTest(x) ==> x.key in w.keys && TestHappened(es, r, x, w.keys[x.key].agent))
    && (x.phase.Success? ==> MarkHappened(es, r, x))
  }

  lemma StillRecorded(es: seq<Event>, r: nat)
    requires IsHistory(es) && es != [] && IsHistory(es[..|es| - 1]) && r < |After(es[..|es| - 1]).requests|
    requires r < |After(es).requests| && After(es).requests[r] == After(es[..|es| - 1]).requests[r]
    requires forall k :: k in After(es[..|es| - 1]).keys ==>
      k in After(es).keys && After(es).keys[k] == After(es[..|es| - 1]).keys[k]
    requires Recorded(es[..|es| - 1], r)
    ensures Recorded(es, r)
  {
    var before := es[..|es| - 1];
    var x := After(es).requests[r];
    assert forall k :: 0 <= k < |before| ==> before[k] == es[k];
    assert x.tested < |before| ==> before[..x.tested] == es[..x.tested];
    assert x.marked < |before| ==> before[..x.marked] == es[..x.marked];
  }

  /** One step of the request itself, against what it had recorded before. */
  lemma StepRecords(w: World, r: nat, step: Step)
    requires Enabled(w, Moves(r, step)) && ReqOk(w, r, w.requests[r])
    ensures var x, y := w.requests[r], Apply(w, Moves(r, step)).requests[r];
      && y.key == x.key
      && (PastCheck(y) ==> if PastCheck(x) then y.checked == x.checked else step.Check? && y.checked == w.stamp)
      && (PastTest(y) ==> y.key in w.keys)
      && (PastTest(y) && PastTest(x) ==> y.tested == x.tested && y.epoch == x.epoch)
      && (PastTest(y) && !PastTest(x) ==>
            (step.TestCert? || step.TestKey?) && y.tested == w.stamp && y.epoch == Epoch(w, w.keys[x.key].agent))
      && (y.phase.Success? ==> step.Mark? && y.marked == w.stamp && y.stored == (y.key in w.present))
  {
  }

  lemma NowRecorded(es: seq<Event>, r: nat, step: Step)
    requires IsHistory(es) && es != [] && es[|es| - 1] == Moves(r, step)
    requires IsHistory(es[..|es| - 1]) && r < |After(es[..|es| - 1]).requests| && Recorded(es[..|es| - 1], r)
    requires Enabled(After(es[..|es| - 1]), Moves(r, step)) && After(es) == Apply(After(es[..|es| - 1]), Moves(r, step))
    ensures r < |After(es).requests| && Recorded(es, r)
  {
    var before := es[..|es| - 1];
    var w := After(before);
    Reached(before);
    assert ReqOk(w, r, w.requests[r]);
    MovesFrame(w, r, step);
    StepRecords(w, r, step);
    var x := w.requests[r];
    assert x.key in w.keys ==> Epoch(w, w.keys[x.key].agent) == Removals(before, w.keys[x.key].agent) by {
      if x.key in w.keys {
        EpochCounts(before, w.keys[x.key].agent);
      }
    }
    EpochCounts(before, "");
    assert forall k :: 0 <= k < |before| ==> before[k] == es[k];
    var y := After(es).requests[r];
    assert es[..|before|] == before;
    assert y.tested < |before| ==> before[..y.tested] == es[..y.tested];
  }

  lemma {:induction false} AllRecorded(es: seq<Event>, r: nat)
    requires IsHistory(es) && r < |After(es).requests|
    ensures Recorded(es, r)
    decreases |es|
  {
    if es != [] {
      LastStep(Initial(), es);
      var before, e := es[..|es| - 1], es[|es| - 1];
      var w := After(before);
      KeysGrow(w, e);
      if r < |w.requests| {
        AllRecorded(before, r);
      }
      if e.Moves? && e.r == r {
        NowRecorded(es, r, e.step);
      } else {
        if e.Moves? { MovesFrame(w, e.r, e.step); } else { OthersFrame(w, e); }
        if r < |w.requests| {
          StillRecorded(es, r);
        }
      }
    }
  }

  // ---- how many succeed ----

  /** The requests that created a certificate for the agent; each success is one of them. */
  ghost function Creators(w: World, agent: string): set<nat> {
    set r: nat | r < |w.requests| && w.requests[r].created
      && w.requests[r].key in w.keys && w.keys[w.requests[r].key].agent == agent
  }

  ghost function Successes(w: World, agent: string): set<nat> {
    set r: nat | r < |w.requests| && w.requests[r].phase.Success?
      && w.requests[r].key in w.keys && w.keys[w.requests[r].key].agent == agent
  }

  /** Numbers told apart by a value below n are at most n. */
  lemma {:induction false} Pigeonhole(rs: set<nat>, epoch: nat -> nat, n: nat)
    requires forall r :: r in rs ==> epoch(r) < n
    requires forall r, q :: r in rs && q in rs && r != q ==> epoch(r) != epoch(q)
    ensures |rs| <= n
  {
    if n == 0 {
      assert rs == {};
    } else if r :| r in rs && epoch(r) == n - 1 {
      Pigeonhole(rs - {r}, epoch, n - 1);
    } else {
      Pigeonhole(rs, epoch, n - 1);
    }
  }

  /**
   For any number of concurrent requests and any interleaving: one more certificate is created through
   Provision than files of the agent were removed, at most, so that many requests for it succeed, at most.
   */
  lemma SuccessesAreBounded(es: seq<Event>, agent: string)
    requires IsHistory(es)
    ensures Successes(After(es), agent) <= Creators(After(es), agent)
    ensures |Creators(After(es), agent)| <= Removals(es, agent) + 1
  {
    Reached(es);
    EpochCounts(es, agent);
    var w := After(es);
    var rs := Creators(w, agent);
    var epoch := (r: nat) => if r < |w.requests| then w.requests[r].epoch else 0;
    forall r | r in rs
      ensures epoch(r) < Removals(es, agent) + 1
    {
      assert FilesOk(w, w.requests[r]);
    }
    forall r, q | r in rs && q in rs && r != q
      ensures epoch(r) != epoch(q)
    {
      assert PairOk(w, w.requests[r], w.requests[q]);
    }
    Pigeonhole(rs, epoch, Removals(es, agent) + 1);
    forall r | r in Successes(w, agent)
      ensures r in rs
    {
      assert ReqOk(w, r, w.requests[r]);
    }
  }

  /** Between the moments at which two creators for one agent each found a file missing, one was removed. */
  lemma RemovalBetween(es: seq<Event>, r: nat, q: nat) returns (d: nat)
    requires IsHistory(es) && r < |After(es).requests| && q < |After(es).requests| && r != q
    requires After(es).requests[r].created && After(es).requests[q].created
    requires SameAgent(After(es), After(es).requests[r], After(es).requests[q])
    requires After(es).requests[r].tested <= After(es).requests[q].tested
    ensures var w := After(es);
      && w.requests[r].tested < d < w.requests[q].tested < |es|
      && IsRemoval(es[d], w.keys[w.requests[r].key].agent)
  {
    Reached(es);
    AllRecorded(es, r);
    AllRecorded(es, q);
    var w := After(es);
    var x, y := w.requests[r], w.requests[q];
    var a := w.keys[x.key].agent;
    assert PairOk(w, x, y);
    assert TestHappened(es, r, x, a) && TestHappened(es, q, y, a);
    RemovalsGrow(es, x.tested, y.tested, a);
    d := FindRemoval(es, x.tested, y.tested, a);
    assert !IsRemoval(es[x.tested], a);
  }

  /** With no removal, two successful requests for one agent are the same request; so no key succeeds twice. */
  lemma OneSuccess(es: seq<Event>, r: nat, q: nat)
    requires IsHistory(es) && r < |After(es).requests| && q < |After(es).requests|
    requires After(es).requests[r].phase.Success? && After(es).requests[q].phase.Success?
    requires SameAgent(After(es), After(es).requests[r], After(es).requests[q])
    requires forall d :: 0 <= d < |es| ==> !IsRemoval(es[d], After(es).keys[After(es).requests[r].key].agent)
    ensures r == q
  {
    Reached(es);
    var w := After(es);
    assert ReqOk(w, r, w.requests[r]) && ReqOk(w, q, w.requests[q]);
    if r != q {
      if w.requests[r].tested <= w.requests[q].tested {
        var d := RemovalBetween(es, r, q);
      } else {
        var d := RemovalBetween(es, q, r);
      }
    }
  }

  /**
   If two requests succeed with one key, then between the moments at which they found a file missing a file
   of the agent was removed; and the later one had passed its check before the first marked the key, or the
   store no longer held the key when it was marked.
   */
  lemma KeySucceedsTwiceOnlyIf(es: seq<Event>, r: nat, q: nat) returns (d: nat)
    requires IsHistory(es) && r < |After(es).requests| && q < |After(es).requests| && r != q
    requires After(es).requests[r].phase.Success? && After(es).requests[q].phase.Success?
    requires After(es).requests[r].key == After(es).requests[q].key
    requires After(es).requests[r].tested <= After(es).requests[q].tested
    ensures var w := After(es);
      var x, y := w.requests[r], w.requests[q];
      && x.key in w.keys && x.tested < d < y.tested < |es| && IsRemoval(es[d], w.keys[x.key].agent)
      && (es[x.tested] == Moves(r, TestCert) || es[x.tested] == Moves(r, TestKey))
      && (es[y.tested] == Moves(q, TestCert) || es[y.tested] == Moves(q, TestKey))
      && x.marked < |es| && es[x.marked] == Moves(r, Mark)
      && y.checked < |es| && es[y.checked] == Moves(q, Check)
      && IsHistory(es[..x.marked])
      && (y.checked < x.marked || x.key !in After(es[..x.marked]).present)
  {
    Reached(es);
    var w := After(es);
    var x, y := w.requests[r], w.requests[q];
    assert ReqOk(w, r, x) && ReqOk(w, q, y);
    AllRecorded(es, r);
    AllRecorded(es, q);
    assert MarkHappened(es, r, x) && CheckHappened(es, q, y);
    assert PairOk(w, x, y);
    d := RemovalBetween(es, r, q);
  }

  /** A key is marked used only by a request that created the certificate of the key's agent. */
  lemma UsedByCreator(es: seq<Event>, key: string)
    requires IsHistory(es) && key in After(es).used
    ensures var w := After(es);
      key in w.keys && exists r: nat :: r in Successes(w, w.keys[key].agent) && w.requests[r].key == key && w.requests[r].created
  {
    Reached(es);
    var w := After(es);
    var r: nat :| MarkedBy(w, r, key);
    assert r in Successes(w, w.keys[key].agent);
  }

  // ---- when a request can still succeed ----

  predicate BeforeMutex(p: Phase) {
    p.Asked? || p.Looked? || p.Validated?
  }

  /** What stands between a request and its success, from where it is, if nobody else moves. */
  predicate Promising(w: World, x: Req) {
    && x.key in w.keys
    && (x.phase.Asked? ==> x.key in w.present)
    && (x.phase.Asked? || x.phase.Looked? ==> x.key !in w.used && w.now <= w.keys[x.key].expiresAt)
    && !CertExists(w, w.keys[x.key].agent)
  }

  ghost predicate OwnSteps(fs: seq<Event>, r: nat) {
    forall i :: 0 <= i < |fs| ==> fs[i].Moves? && fs[i].r == r
  }

  /** A run of this request's steps alone, to its success. */
  ghost predicate SucceedsBy(w: World, r: nat, fs: seq<Event>) {
    IsRun(w, fs) && OwnSteps(fs, r) && r < |Run(w, fs).requests| && Run(w, fs).requests[r].phase.Success?
  }

  /** Refused, or going to be. */
  predicate Doomed(w: World, r: nat) {
    r < |w.requests| &&
    var x := w.requests[r];
    || x.phase.Failed?
    || (BeforeMutex(x.phase) && !Promising(w, x))
    || (x.phase.Locked? && x.key in w.keys && CertExists(w, w.keys[x.key].agent))
    || (x.phase.CertSeen? && x.key in w.keys && KeyFile(w.keys[x.key].agent) in w.files)
  }

  lemma DoomedStep(w: World, r: nat, step: Step)
    requires Enabled(w, Moves(r, step)) && Doomed(w, r) && w.present <= w.keys.Keys
    requires w.requests[r].phase.Validated? ==> w.requests[r].key in w.keys
    ensures Doomed(Apply(w, Moves(r, step)), r)
  {
  }

  lemma {:induction false} StaysDoomed(w: World, r: nat, fs: seq<Event>)
    requires Inv(w) && Doomed(w, r) && IsRun(w, fs) && OwnSteps(fs, r)
    ensures Doomed(Run(w, fs), r)
    decreases |fs|
  {
    if fs != [] {
      assert fs[0].r == r;
      assert ReqOk(w, r, w.requests[r]);
      DoomedStep(w, r, fs[0].step);
      StepInv(w, fs[0]);
      StaysDoomed(Apply(w, fs[0]), r, fs[1..]);
    }
  }

  /** One step, appended. */
  lemma Goes(w: World, r: nat, fs: seq<Event>, step: Step) returns (gs: seq<Event>)
    requires IsRun(w, fs) && OwnSteps(fs, r) && Enabled(Run(w, fs), Moves(r, step))
    ensures IsRun(w, gs) && OwnSteps(gs, r) && Run(w, gs) == Apply(Run(w, fs), Moves(r, step))
  {
    Snoc(w, fs, Moves(r, step));
    gs := fs + [Moves(r, step)];
  }

  /** A request that owns nothing yet gets as far as Validated. */
  lemma GetsValidated(w: World, r: nat) returns (fs: seq<Event>)
    requires r < |w.requests| && w.mu.None? && BeforeMutex(w.requests[r].phase) && Promising(w, w.requests[r])
    ensures IsRun(w, fs) && OwnSteps(fs, r) && r < |Run(w, fs).requests|
    ensures var v := Run(w, fs);
      && v.requests[r].phase.Validated? && v.requests[r].key == w.requests[r].key
      && v == w.(requests := w.requests[r := v.requests[r]], stamp := v.stamp)
  {
    fs := [];
    if w.requests[r].phase.Asked? {
      fs := Goes(w, r, fs, LookUp);
    }
    if !w.requests[r].phase.Validated? {
      fs := Goes(w, r, fs, Check);
    }
  }

  /** From Validated, with the mutex free and a file missing, through the mutex. */
  lemma GetsGenerating(w: World, r: nat) returns (fs: seq<Event>)
    requires r < |w.requests| && w.mu.None? && w.requests[r].phase.Validated? && Promising(w, w.requests[r])
    ensures IsRun(w, fs) && OwnSteps(fs, r) && r < |Run(w, fs).requests|
    ensures var v := Run(w, fs);
      && v.requests[r].phase.Generating? && v.requests[r].key == w.requests[r].key
      && v == w.(requests := w.requests[r := v.requests[r]], stamp := v.stamp, mu := Some(r))
  {
    fs := Goes(w, r, [], Lock);
    fs := Goes(w, r, fs, TestCert);
    if CertFile(w.keys[w.requests[r].key].agent) in w.files {
      fs := Goes(w, r, fs, TestKey);
    }
  }

  lemma GetsSuccess(w: World, r: nat) returns (fs: seq<Event>)
    requires r < |w.requests| && w.requests[r].phase.Generating? && w.requests[r].key in w.keys
    ensures IsRun(w, fs) && OwnSteps(fs, r) && r < |Run(w, fs).requests|
    ensures var v := Run(w, fs);
      && v.requests[r].phase.Success? && v.requests[r].key == w.requests[r].key && v.mu.None? && v.keys == w.keys
      && v.requests == w.requests[r := v.requests[r]] && v.now == w.now
  {
    fs := Goes(w, r, [], WriteCert);
    fs := Goes(w, r, fs, WriteKey);
    fs := Goes(w, r, fs, Mark);
  }

  lemma {:induction false} Append(w: World, es: seq<Event>, fs: seq<Event>)
    requires IsRun(w, es) && IsRun(Run(w, es), fs)
    ensures IsRun(w, es + fs) && Run(w, es + fs) == Run(Run(w, es), fs)
    decreases |es|
  {
    if es == [] {
      assert es + fs == fs;
    } else {
      Append(Apply(w, es[0]), es[1..], fs);
      assert (es + fs)[1..] == es[1..] + fs;
    }
  }

  lemma SucceedsAlone(w: World, r: nat) returns (fs: seq<Event>)
    requires r < |w.requests| && w.mu.None? && BeforeMutex(w.requests[r].phase) && Promising(w, w.requests[r])
    ensures SucceedsBy(w, r, fs)
    ensures var v := Run(w, fs);
      && v.mu.None? && v.keys == w.keys && v.now == w.now && v.requests == w.requests[r := v.requests[r]]
      && v.requests[r].key == w.requests[r].key
  {
    fs := GetsValidated(w, r);
    var v := Run(w, fs);
    var gs := GetsGenerating(v, r);
    var hs := GetsSuccess(Run(v, gs), r);
    Append(v, gs, hs);
    Append(w, fs, gs + hs);
    fs := fs + (gs + hs);
  }

  /**
   A request that has not reached the certificate mutex, in a reachable state with the mutex free and whatever
   other requests of its key have done, can still succeed by its own steps alone if and only if a file of the
   certificate is missing and what it has yet to check of its key holds.
   */
  lemma SucceedsAloneIff(w: World, r: nat)
    requires Inv(w) && r < |w.requests| && w.mu.None? && BeforeMutex(w.requests[r].phase)
    ensures (exists fs :: SucceedsBy(w, r, fs)) <==> Promising(w, w.requests[r])
  {
    if Promising(w, w.requests[r]) {
      var fs := SucceedsAlone(w, r);
    } else {
      forall fs | IsRun(w, fs) && OwnSteps(fs, r)
        ensures !SucceedsBy(w, r, fs)
      {
        StaysDoomed(w, r, fs);
      }
    }
  }

  // ---- failures on the way ----

  /** After a step of request r, another one before the mutex, for the same agent. */
  ghost predicate Rival(w: World, r: nat, q: nat) {
    r < |w.requests| && q < |w.requests| && q != r && BeforeMutex(w.requests[q].phase) && SameAgent(w, w.requests[r], w.requests[q])
  }

  /**
   A request can fail after it has created the certificate.  Its key is then not marked, and still no request of
   the agent can succeed from before the mutex until a file is removed.
   */
  lemma LateFailureLocksOut(es: seq<Event>, r: nat, q: nat, fs: seq<Event>)
    requires IsHistory(es) && Rival(After(es), r, q) && After(es).mu.None?
    requires var x := After(es).requests[r];
      x.phase.Created? && x.epoch == Epoch(After(es), After(es).keys[x.key].agent)
    ensures Enabled(After(es), Moves(r, EncodeFails))
    ensures var v := Apply(After(es), Moves(r, EncodeFails));
      v.requests[r].phase == Failed(500) && v.used == After(es).used && !SucceedsBy(v, q, fs)
  {
    Reached(es);
    var w := After(es);
    var v := Apply(w, Moves(r, EncodeFails));
    StepInv(w, Moves(r, EncodeFails));
    assert FilesOk(w, w.requests[r]);
    SucceedsAloneIff(v, q);
  }

  /**
   It can also fail between the two files.  The mutex is then free again, and whether another request of the agent
   can succeed depends on its own key and on the file that is still missing.
   */
  lemma EarlyFailureRecovers(es: seq<Event>, r: nat, q: nat)
    requires IsHistory(es) && Rival(After(es), r, q) && After(es).requests[r].phase.WroteCert?
    requires After(es).requests[q].phase.Validated?
    ensures Enabled(After(es), Moves(r, GenerateFails))
    ensures var v := Apply(After(es), Moves(r, GenerateFails));
      && v.requests[r].phase == Failed(500) && v.mu.None? && v.files == After(es).files && v.used == After(es).used
      && ((exists fs :: SucceedsBy(v, q, fs)) <==> !CertExists(After(es), v.keys[v.requests[q].key].agent))
  {
    Reached(es);
    var w := After(es);
    StepInv(w, Moves(r, GenerateFails));
    SucceedsAloneIff(Apply(w, Moves(r, GenerateFails)), q);
  }

  // ---- a key that succeeds twice ----

  lemma TwoAsked() returns (es: seq<Event>)
    ensures IsHistory(es)
    ensures After(es) == Initial().(
      keys := map["k" := Key("a", 0, 9)], present := {"k"}, stamp := 3,
      requests := [Req("k", Asked, false, 0, 0, 0, 0, false), Req("k", Asked, false, 0, 0, 0, 0, false)])
  {
    es := [];
    Snoc(Initial(), es, CreateKey("k", "a", 9));
    es := es + [CreateKey("k", "a", 9)];
    Snoc(Initial(), es, Ask("k"));
    es := es + [Ask("k")];
    Snoc(Initial(), es, Ask("k"));
    es := es + [Ask("k")];
  }

  /** So a removal is needed: with one, two racing requests do succeed with one key. */
  lemma KeySucceedsTwice() returns (es: seq<Event>)
    ensures IsHistory(es) && |After(es).requests| == 2
    ensures After(es).requests[0].phase.Success? && After(es).requests[1].phase.Success?
    ensures After(es).requests[0].key == After(es).requests[1].key
  {
    es := TwoAsked();
    var fs := GetsValidated(After(es), 1);
    Append(Initial(), es, fs);
    es := es + fs;
    fs := SucceedsAlone(After(es), 0);
    Append(Initial(), es, fs);
    es := es + fs;
    Snoc(Initial(), es, Removes(CertFile("a")));
    es := es + [Removes(CertFile("a"))];
    fs := SucceedsAlone(After(es), 1);
    Append(Initial(), es, fs);
    es := es + fs;
  }

  // ---- the bound is met ----

  lemma {:induction false} OwnStepsRemoveNothing(es: seq<Event>, fs: seq<Event>, r: nat, agent: string)
    requires OwnSteps(fs, r)
    ensures Removals(es + fs, agent) == Removals(es, agent)
    decreases |fs|
  {
    if fs == [] {
      assert es + fs == es;
    } else {
      var n := |fs| - 1;
      OwnStepsRemoveNothing(es, fs[..n], r, agent);
      assert (es + fs)[..|es + fs| - 1] == es + fs[..n];
      assert fs[n].r == r;
    }
  }

  lemma SuccessAdds(w: World, v: World, r: nat, agent: string)
    requires r < |w.requests| == |v.requests| && v.requests == w.requests[r := v.requests[r]] && v.keys == w.keys
    requires !w.requests[r].phase.Success? && v.requests[r].phase.Success?
    requires v.requests[r].key in v.keys && v.keys[v.requests[r].key].agent == agent
    ensures |Successes(v, agent)| == |Successes(w, agent)| + 1
  {
    assert Successes(v, agent) == Successes(w, agent) + {r};
  }

  /** A fresh key, and a request with it. */
  lemma OneAsks(es: seq<Event>, key: string) returns (fs: seq<Event>)
    requires IsHistory(es) && key !in After(es).keys
    ensures IsHistory(fs) && Removals(fs, "a") == Removals(es, "a") && Successes(After(fs), "a") == Successes(After(es), "a")
    ensures var w, v := After(es), After(fs);
      v == w.(keys := w.keys[key := Key("a", w.now, w.now)], present := w.present + {key}, stamp := w.stamp + 2,
              requests := w.requests + [Req(key, Asked, false, 0, 0, 0, 0, false)])
  {
    var w := After(es);
    var create := CreateKey(key, "a", w.now);
    Snoc(Initial(), es, create);
    var gs := es + [create];
    assert gs[..|gs| - 1] == es;
    Snoc(Initial(), gs, Ask(key));
    fs := gs + [Ask(key)];
    assert fs[..|fs| - 1] == gs;
    Reached(es);
    assert forall q: nat :: q < |w.requests| ==> ReqOk(w, q, w.requests[q]);
  }

  /** And up to its success. */
  lemma OneMore(es: seq<Event>, key: string) returns (fs: seq<Event>)
    requires IsHistory(es) && key !in After(es).keys && After(es).mu.None? && !CertExists(After(es), "a")
    ensures IsHistory(fs) && After(fs).mu.None? && After(fs).keys.Keys == After(es).keys.Keys + {key}
    ensures Removals(fs, "a") == Removals(es, "a") && |Successes(After(fs), "a")| == |Successes(After(es), "a")| + 1
  {
    Reached(es);
    var gs := OneAsks(es, key);
    var v := After(gs);
    var r := |After(es).requests|;
    var hs := SucceedsAlone(v, r);
    SuccessAdds(v, Run(v, hs), r, "a");
    OwnStepsRemoveNothing(gs, hs, r, "a");
    Append(Initial(), gs, hs);
    fs := gs + hs;
  }

  function Name(n: nat): string {
    seq(n, i => 'k')
  }

  /** For every n there is a run with n removals and n + 1 successes. */
  lemma {:induction false} BoundIsMet(n: nat) returns (es: seq<Event>)
    ensures IsHistory(es) && Removals(es, "a") == n && |Successes(After(es), "a")| == n + 1
    ensures After(es).mu.None? && forall k :: k in After(es).keys ==> |k| <= n
  {
    if n == 0 {
      es := [];
      assert Successes(After(es), "a") == {};
    } else {
      es := BoundIsMet(n - 1);
      var w := After(es);
      Snoc(Initial(), es, Removes(CertFile("a")));
      var fs := es + [Removes(CertFile("a"))];
      assert fs[..|fs| - 1] == es;
      es := fs;
      assert Successes(After(es), "a") == Successes(w, "a");
    }
    Reached(es);
    assert forall k :: k in After(es).keys ==> k != Name(n) || n == 0;
    es := OneMore(es, Name(n));
  }
}
