/** The activation of the participant gateway: six objects are created in a fixed order
    and lose their nonces, Flux takes over, and everything is checked once more. Any
    failure after the first create leads into the rollback. */
module ParticipantActivation {
  import opened Wrappers
  import opened ApiServer
  import opened FluxTracking
  import opened ParticipantObjects
  import opened ParticipantRollback

  /** The checks of the forward path. Only of the absence preflight does this model
      look inside. */
  datatype Check =
    | InitialCluster | Publication | Endpoints | AbsencePreflight | SecretsBefore | TracerBinding | PolicyBefore
    | ClusterBeforeMutation
    | DeploymentHealthy | RuntimeImage | SecretsBeforeIngress | PolicyBeforeIngress | Database | ClusterBeforeIngress
    | Routes | SourceBeforeCas | ClusterBeforeFlux
    | GatewayReady | WorkbenchReady | SourceAfterReady | HealthAfterFlux | RoutesAfterFlux | SecretsAfterFlux
    | PolicyAfterFlux | PreservationAfter | ClusterBeforeSuccess | FinalFlux | FactsFresh

  const AT_START: seq<Check> := [InitialCluster, Publication, Endpoints]
  const AFTER_ABSENCE: seq<Check> := [SecretsBefore, TracerBinding, PolicyBefore, ClusterBeforeMutation]
  const BEFORE_MUTATION: seq<Check> := AT_START + [AbsencePreflight] + AFTER_ABSENCE
  const BEFORE_INGRESS: seq<Check> := [RuntimeImage, SecretsBeforeIngress, PolicyBeforeIngress, Database,
                                       ClusterBeforeIngress]
  const BEFORE_FLUX: seq<Check> := [Routes, SourceBeforeCas, ClusterBeforeFlux]
  const AFTER_FLUX: seq<Check> := [GatewayReady, WorkbenchReady, SourceAfterReady, HealthAfterFlux, RoutesAfterFlux,
                                   SecretsAfterFlux, PolicyAfterFlux]
  const BEFORE_SUCCESS: seq<Check> := [PreservationAfter, ClusterBeforeSuccess, FinalFlux, FactsFresh]

  /** A check that passed: with how many objects bound, none of them carrying a nonce
      any more, and after how many requests. */
  datatype Passed = Passed(check: Check, bound: nat, at: nat)

  ghost predicate AllPassed(passed: set<Passed>, checks: seq<Check>, bound: nat, at: nat) {
    forall check <- checks :: Passed(check, bound, at) in passed
  }

  /** After `at` requests, each of the six names was read and was free. */
  ghost predicate NamesWereFree(sightings: seq<Sighting>, n: nat, at: nat)
    requires n <= 6
  {
    forall i :: 0 <= i < n ==> Sighting(Target(ORDER[i]), None, at) in sightings
  }

  /** A passed absence preflight has those reads behind it. */
  ghost predicate PreflightIsReal(sightings: seq<Sighting>, passed: set<Passed>) {
    forall p <- passed :: p.check.AbsencePreflight? ==> NamesWereFree(sightings, 6, p.at)
  }

  lemma StillReal(few: seq<Sighting>, many: seq<Sighting>, passed: set<Passed>)
    requires few <= many && PreflightIsReal(few, passed)
    ensures PreflightIsReal(many, passed)
  {
    assert forall s <- few :: s in many;
  }

  /** What stands behind the requests of a run: what the answers showed, which request
      made which object, and the checks that passed. */
  datatype Grounds = Grounds(sightings: seq<Sighting>, made: map<nat, Post>, passed: set<Passed>,
                             from: nat, render: Render, nonce: nat)

  ghost predicate Firmer(g: Grounds, h: Grounds) {
    && g.sightings <= h.sightings && g.passed <= h.passed
    && (forall u <- g.made :: u in h.made && h.made[u] == g.made[u])
    && g.from == h.from && g.render == h.render && g.nonce == h.nonce
  }

  /** The answer came after request number `q`, and not after request number `p`, and
      showed this very object without a nonce and as desired. */
  predicate ShowsFree(s: Sighting, q: nat, uid: nat, p: nat, l: Logical, desired: Body) {
    && s.key == Target(l) && q < s.at <= p && s.found.Some?
    && s.found.value.uid == uid && Clean(s.found.value, desired)
  }

  /** Request number `q` took the nonce off an object that this run's own create request
      had made, and before request number `p` that object was seen without it. */
  ghost predicate FreedBy(trace: seq<Event>, g: Grounds, q: nat, uid: nat, p: nat, l: Logical)
    requires q < |trace|
  {
    && trace[q] == PatchSent(Target(l), uid, DropNonce(g.nonce))
    && uid in g.made && g.made[uid].key == Target(l) && g.made[uid].nonce == g.nonce
    && exists s <- g.sightings :: ShowsFree(s, q, uid, p, l, g.render(l))
  }

  ghost predicate Freed(trace: seq<Event>, g: Grounds, p: nat, l: Logical) {
    exists q: nat, uid: nat :: g.from <= q < p <= |trace| && FreedBy(trace, g, q, uid, p, l)
  }

  lemma StillFreed(trace: seq<Event>, more: seq<Event>, g: Grounds, h: Grounds, p: nat, later: nat, l: Logical)
    requires trace <= more && Firmer(g, h) && p <= later <= |more| && Freed(trace, g, p, l)
    ensures Freed(more, h, later, l)
  {
    var q: nat, uid: nat :| g.from <= q < p <= |trace| && FreedBy(trace, g, q, uid, p, l);
    var s :| s in g.sightings && ShowsFree(s, q, uid, p, l, g.render(l));
    assert s in h.sightings && ShowsFree(s, q, uid, later, l, h.render(l));
    assert FreedBy(more, h, q, uid, later, l);
  }

  /** The first `n` objects of the fixed order lost their nonces before request `p`. */
  ghost predicate FreedUpTo(trace: seq<Event>, g: Grounds, p: nat, n: nat)
    requires n <= 6
  {
    forall i :: 0 <= i < n ==> Freed(trace, g, p, ORDER[i])
  }

  lemma StillFreedUpTo(trace: seq<Event>, more: seq<Event>, g: Grounds, h: Grounds, p: nat, later: nat, n: nat)
    requires n <= 6 && trace <= more && Firmer(g, h) && p <= later <= |more| && FreedUpTo(trace, g, p, n)
    ensures FreedUpTo(more, h, later, n)
  {
    forall i | 0 <= i < n
      ensures Freed(more, h, later, ORDER[i])
    {
      StillFreed(trace, more, g, h, p, later, ORDER[i]);
    }
  }

  /** What each request of the forward path must be preceded by; the checks with no other
      request in between. */
  ghost predicate Prepared(trace: seq<Event>, p: nat, g: Grounds)
    requires p < |trace|
  {
    match trace[p]
    case PostSent(post) =>
      && post.nonce == g.nonce
      && (post.key == Target(GatewayNetworkPolicy) ==> AllPassed(g.passed, BEFORE_MUTATION, 0, p))
      && (post.key == Target(GatewayIngress) ==>
            && AllPassed(g.passed, BEFORE_INGRESS, 5, p) && Passed(DeploymentHealthy, 5, p) in g.passed
            && FreedUpTo(trace, g, p, 5))
    case PatchSent(_, _, change) => change == DropNonce(g.nonce)
    case SuspendSent(key, suspend) =>
      && !suspend && FreedUpTo(trace, g, p, 6)
      && if p > 0 && trace[p - 1].SuspendSent? then
           key == Kustomization(WorkbenchIngress) && trace[p - 1].key == Kustomization(Gateway)
           && AllPassed(g.passed, BEFORE_FLUX, 6, p - 1)
         else key == Kustomization(Gateway) && AllPassed(g.passed, BEFORE_FLUX, 6, p)
    case DeleteSent(_, _, _) => false
  }

  ghost predicate AllPrepared(trace: seq<Event>, g: Grounds) {
    forall p :: g.from <= p < |trace| ==> Prepared(trace, p, g)
  }

  lemma StillPrepared(trace: seq<Event>, more: seq<Event>, p: nat, g: Grounds, h: Grounds)
    requires trace <= more && Firmer(g, h) && p < |trace| && Prepared(trace, p, g)
    ensures Prepared(more, p, h)
  {
    assert more[p] == trace[p] && (p > 0 ==> more[p - 1] == trace[p - 1]);
    if trace[p].PostSent? && trace[p].post.key == Target(GatewayIngress) {
      StillFreedUpTo(trace, more, g, h, p, p, 5);
    } else if trace[p].SuspendSent? {
      StillFreedUpTo(trace, more, g, h, p, p, 6);
    }
  }

  lemma MorePrepared(trace: seq<Event>, more: seq<Event>, g: Grounds, h: Grounds)
    requires trace <= more && Firmer(g, h) && AllPrepared(trace, g)
    requires forall p :: |trace| <= p < |more| ==> Prepared(more, p, h)
    ensures AllPrepared(more, h)
  {
    forall p | h.from <= p < |more|
      ensures Prepared(more, p, h)
    {
      if p < |trace| {
        StillPrepared(trace, more, p, g, h);
      }
    }
  }

  /** The targets of the create requests, in order. */
  function Posts(trace: seq<Event>): seq<Key> {
    if trace == [] then []
    else
      var last := trace[|trace| - 1];
      Posts(trace[..|trace| - 1]) + if last.PostSent? then [last.post.key] else []
  }

  lemma PostsAppended(trace: seq<Event>, e: Event)
    ensures Posts(trace + [e]) == Posts(trace) + if e.PostSent? then [e.post.key] else []
  {
    assert (trace + [e])[..|trace|] == trace;
  }

  lemma {:induction false} PostsUnchanged(trace: seq<Event>, more: seq<Event>)
    requires trace <= more && forall p :: |trace| <= p < |more| ==> !more[p].PostSent?
    ensures Posts(more) == Posts(trace)
  {
    if more != trace {
      PostsUnchanged(trace, more[..|more| - 1]);
    }
  }

  function Targets(n: nat): seq<Key>
    requires n <= 6
  {
    seq(n, i requires 0 <= i < n => Target(ORDER[i]))
  }

  lemma NextPost(before: seq<Event>, trace: seq<Event>, post: Post, n: nat)
    requires n < 6 && Posts(trace) == Posts(before) + Targets(n) && post.key == Target(ORDER[n])
    ensures Posts(trace + [PostSent(post)]) == Posts(before) + Targets(n + 1)
  {
    PostsAppended(trace, PostSent(post));
    assert Targets(n + 1) == Targets(n) + [post.key];
  }

  /** The last create since request number `from` ended with this reply. */
  ghost predicate LastReply(trace: seq<Event>, from: nat, replies: map<nat, Reply>, reply: Reply) {
    exists p :: from <= p < |trace| && p in replies && replies[p] == reply && LastPost(trace, p)
  }

  predicate LastPost(trace: seq<Event>, p: nat)
    requires p < |trace|
  {
    trace[p].PostSent? && forall q :: p < q < |trace| ==> !trace[q].PostSent?
  }

  lemma ReplyStays(trace: seq<Event>, more: seq<Event>, from: nat, replies: map<nat, Reply>, reply: Reply)
    requires trace <= more && forall q :: |trace| <= q < |more| ==> !more[q].PostSent?
    ensures LastReply(trace, from, replies, reply) <==> LastReply(more, from, replies, reply)
  {
    if LastReply(trace, from, replies, reply) {
      var p :| from <= p < |trace| && p in replies && replies[p] == reply && LastPost(trace, p);
      assert LastPost(more, p);
    }
    if LastReply(more, from, replies, reply) {
      var p :| from <= p < |more| && p in replies && replies[p] == reply && LastPost(more, p);
      assert LastPost(trace, p);
    }
  }

  lemma NewestReply(trace: seq<Event>, e: Event, from: nat, replies: map<nat, Reply>, reply: Reply)
    requires e.PostSent? && from <= |trace| && |trace| in replies
    ensures LastReply(trace + [e], from, replies, reply) <==> replies[|trace|] == reply
  {
    var more := trace + [e];
    assert LastPost(more, |trace|);
    if LastReply(more, from, replies, reply) {
      var p :| from <= p < |more| && p in replies && replies[p] == reply && LastPost(more, p);
      assert more[|trace|].PostSent?;
      assert p == |trace|;
    }
  }

  /** The last create ended in a way that clears the note of the uncertain name. */
  ghost predicate EndedWithout(trace: seq<Event>, from: nat, replies: map<nat, Reply>) {
    LastReply(trace, from, replies, AlreadyExists) || LastReply(trace, from, replies, Thrown)
  }

  lemma FewerOnTheirWay(few: set<Post>, many: set<Post>, nonce: nat, created: seq<Created>, open: bool)
    requires few <= many && OnlyNextOnItsWay(many, nonce, created, open)
    ensures OnlyNextOnItsWay(few, nonce, created, open)
  {
  }

  /** Nothing under this nonce was created before. */
  ghost predicate FreshNonce(before: seq<Event>, nonce: nat) {
    forall e <- before :: e.PostSent? ==> e.post.nonce != nonce
  }

  /** Under this nonce only the create after the bound ones can be on its way, and only if
      the matter is open. */
  ghost predicate OnlyNextOnItsWay(inflight: set<Post>, nonce: nat, created: seq<Created>, open: bool) {
    forall p <- inflight :: p.nonce == nonce ==> open && |created| < 6 && p.key == Target(ORDER[|created|])
  }

  ghost predicate Unsuspended(trace: seq<Event>, from: nat) {
    exists p :: from <= p < |trace| && trace[p].SuspendSent?
  }

  predicate AllReleased(created: seq<Created>) {
    forall c <- created :: c.nonceRemoved
  }

  /** The bound objects are the first ones of the fixed order, and all but the newest
      have lost their nonce. */
  predicate InOrder(created: seq<Created>) {
    && |created| <= 6
    && (forall i :: 0 <= i < |created| ==> created[i].logical == ORDER[i])
    && (forall i :: 0 <= i < |created| - 1 ==> created[i].nonceRemoved)
  }

  /** The object was read after the last request, under its UID, without a nonce, with
      the labels of its new owner and otherwise as desired. */
  ghost predicate SeenActive(sightings: seq<Sighting>, c: Created, desired: Body, at: nat) {
    SeenClean(sightings, c, desired.(tracking := Tracked), at)
  }

  /** What stands behind a success receipt. */
  ghost predicate Completed(trace: seq<Event>, sightings: seq<Sighting>, passed: set<Passed>,
                            created: seq<Created>, render: Render) {
    && |created| == 6 && InOrder(created) && AllReleased(created)
    && |trace| >= 2 && trace[|trace| - 2..] == [SuspendSent(Kustomization(Gateway), false),
                                                SuspendSent(Kustomization(WorkbenchIngress), false)]
    && AllPassed(passed, AFTER_FLUX, 6, |trace|) && AllPassed(passed, BEFORE_SUCCESS, 6, |trace|)
    && forall c <- created :: SeenActive(sightings, c, render(c.logical), |trace|)
  }

  /** Whatever counts as released was freed before the next request. */
  ghost predicate CreatedFreed(trace: seq<Event>, g: Grounds, created: seq<Created>) {
    |created| <= 6 && forall i :: 0 <= i < |created| && created[i].nonceRemoved ==> Freed(trace, g, |trace|, ORDER[i])
  }

  lemma StillCreatedFreed(trace: seq<Event>, more: seq<Event>, g: Grounds, h: Grounds, created: seq<Created>)
    requires trace <= more && Firmer(g, h) && CreatedFreed(trace, g, created)
    ensures CreatedFreed(more, h, created)
  {
    forall i | 0 <= i < |created| && created[i].nonceRemoved
      ensures Freed(more, h, |more|, ORDER[i])
    {
      StillFreed(trace, more, g, h, |trace|, |more|, ORDER[i]);
    }
  }

  lemma AllFreed(trace: seq<Event>, more: seq<Event>, g: Grounds, h: Grounds, created: seq<Created>)
    requires trace <= more && Firmer(g, h) && CreatedFreed(trace, g, created) && AllReleased(created)
    ensures FreedUpTo(more, h, |trace|, |created|)
  {
    assert forall i :: 0 <= i < |created| ==> created[i] in created;
    StillFreedUpTo(trace, more, g, h, |trace|, |trace|, |created|);
  }

  function KeysOf(preserved: seq<Preserved>): seq<Key> {
    seq(|preserved|, i requires 0 <= i < |preserved| => preserved[i].key)
  }

  datatype Settings = Settings(render: Render, gatewayDormant: Body, workbenchDormant: Body,
                               preserved: seq<Key>, timing: Timing, patience: nat) {
    predicate Valid() {
      timing.poll > 0 && gatewayDormant.suspended && workbenchDormant.suspended
    }
  }

  class Activation {
    const world: World
    const settings: Settings
    const nonce: nat
    var created: seq<Created>
    var uncertain: Option<Logical>
    var mutationStarted: bool
    var bootstrap: Option<Bootstrap>
    var preserved: seq<Preserved>
    ghost const from: nat
    ghost const before: seq<Event>
    ghost var sent: nat                // create requests sent
    ghost var ended: Option<Outcome>   // how the last of them ended, once that is known
    ghost var passed: set<Passed>

    ghost function Basis(): Grounds
      reads `passed, world`sightings, world`made
    {
      Grounds(world.sightings, world.made, passed, from, settings.render, nonce)
    }

    /** The last create ended in one of the two ways that clear the uncertain name. */
    ghost predicate Cleared()
      reads `ended
    {
      ended.Some? && (ended.value.Conflict? || ended.value.Interrupted?)
    }

    /** The outcome is what the reply to the last create says. */
    ghost predicate Linked(outcome: Option<Outcome>, trace: seq<Event>, replies: map<nat, Reply>) {
      outcome.Some? ==>
        && (outcome.value.Conflict? <==> LastReply(trace, from, replies, AlreadyExists))
        && (outcome.value.Interrupted? <==> LastReply(trace, from, replies, Thrown))
    }

    ghost predicate Running()
      reads this, world
    {
      && world.Valid() && settings.Valid() && nonce < world.nextNonce
      && from == |before| && before <= world.trace
      && InOrder(created) && |created| <= sent <= 6 && sent <= |created| + 1
      && (forall c <- created :: Owned(world, nonce, c) && (c.nonceRemoved ==> Bare(world, c)))
      && Posts(world.trace) == Posts(before) + Targets(sent)
      && AllPrepared(world.trace, Basis()) && CreatedFreed(world.trace, Basis(), created)
      && (Unsuspended(world.trace, from) ==> |created| == 6 && AllReleased(created))
      && (bootstrap.Some? ==> bootstrap.value.Valid() && KeysOf(preserved) == settings.preserved)
      && (mutationStarted ==> bootstrap.Some?)
      && PreflightIsReal(world.sightings, passed)
      && (uncertain.Some? ==>
            && |created| < 6 && uncertain.value == ORDER[|created|]
            && sent == |created| + 1 && AllReleased(created) && !Cleared())
      && (uncertain.None? && sent > |created| ==> Cleared())
      && FreshNonce(before, nonce) && Linked(ended, world.trace, world.replies)
      && (ended == Some(Conflict) && |created| < 6 ==> NoneInFlight(world.inflight, Target(ORDER[|created|]), nonce))
      && (world.trace != before || sent > 0 ==> mutationStarted)
    }

    constructor (world: World, settings: Settings, nonce: nat)
      requires world.Valid() && settings.Valid() && nonce < world.nextNonce && FreshNonce(world.trace, nonce)
      ensures this.world == world && this.settings == settings && this.nonce == nonce
      ensures before == world.trace && Running() && created == [] && uncertain.None? && !mutationStarted
      ensures sent == 0 && bootstrap.None? && ended.None? && preserved == []
    {
      this.world, this.settings, this.nonce := world, settings, nonce;
      created, uncertain, mutationStarted, bootstrap, preserved := [], None, false, None, [];
      from, before, sent, passed, ended := |world.trace|, world.trace, 0, {}, None;
      new;
      assert Targets(0) == [];
    }

    /** Nothing was requested, and nothing forgotten. */
    twostate predicate OnlyLooked()
      reads this, world
    {
      && Running() && world.trace == old(world.trace) && world.ledger == old(world.ledger)
      && created == old(created) && uncertain == old(uncertain) && sent == old(sent) && ended == old(ended)
      && mutationStarted == old(mutationStarted) && bootstrap == old(bootstrap)
      && old(world.sightings) <= world.sightings && old(passed) <= passed
    }

    twostate lemma Looked()
      requires old(Running()) && world.Grew() && world.trace == old(world.trace)
      requires created == old(created) && uncertain == old(uncertain) && sent == old(sent) && bootstrap == old(bootstrap)
      requires mutationStarted == old(mutationStarted) && old(passed) <= passed && preserved == old(preserved)
      requires old(world.sightings) <= world.sightings && ended == old(ended)
      requires world.inflight <= old(world.inflight) && world.replies == old(world.replies)
      requires PreflightIsReal(old(world.sightings), passed)
      ensures Running()
    {
      StillReal(old(world.sightings), world.sightings, passed);
      MorePrepared(world.trace, world.trace, old(Basis()), Basis());
      StillCreatedFreed(world.trace, world.trace, old(Basis()), Basis(), created);
      AllStay(world, nonce, created);
    }

    /** One of the opaque checks. */
    method Pass(check: Check) returns (r: Result<()>)
      requires Running() && AllReleased(created) && !check.AbsencePreflight?
      modifies world, `passed
      ensures OnlyLooked() && old(passed) <= passed && world.sightings == old(world.sightings)
      ensures r.Ok? ==> Passed(check, |created|, |world.trace|) in passed
    {
      r := world.Check();
      if r.Ok? {
        passed := passed + {Passed(check, |created|, |world.trace|)};
      }
      Looked();
    }

    method RunChecks(checks: seq<Check>) returns (r: Result<()>)
      requires Running() && AllReleased(created) && AbsencePreflight !in checks
      modifies world, `passed
      ensures OnlyLooked() && old(passed) <= passed && world.sightings == old(world.sightings)
      ensures r.Ok? ==> AllPassed(passed, checks, |created|, |world.trace|)
    {
      hide Running;
      for i := 0 to |checks|
        invariant OnlyLooked() && old(passed) <= passed && world.sightings == old(world.sightings)
        invariant AllPassed(passed, checks[..i], |created|, |world.trace|)
      {
        var _ :- Pass(checks[i]);
        assert checks[..i + 1] == checks[..i] + [checks[i]];
      }
      assert checks[..|checks|] == checks;
      r := Ok(());
    }

    method Live(key: Key) returns (r: Result<Obj>)
      requires Running()
      modifies world
      ensures OnlyLooked() && old(world.sightings) <= world.sightings
      ensures r.Ok? ==> Sighting(key, Some(r.value), |world.trace|) in world.sightings
    {
      r := ParticipantObjects.Live(world, key);
      Looked();
    }

    method Absent(key: Key) returns (r: Result<()>)
      requires Running()
      modifies world
      ensures OnlyLooked() && passed == old(passed)
      ensures r.Ok? ==> Sighting(key, None, |world.trace|) in world.sightings
    {
      var answer := world.Get(key);
      Looked();
      var found :- answer;
      assert world.sightings[|old(world.sightings)|] == Sighting(key, found, |world.trace|);
      r := Require(found.None?);
    }

    // --------------------------------------------------------------- preflight

    /** Bind both Kustomizations as they are: suspended, and with the dormant semantics. */
    method BindFlux() returns (r: Result<()>)
      requires Running() && created == [] && KeysOf(preserved) == settings.preserved
      modifies world, `bootstrap
      ensures Running() && world.trace == old(world.trace) && world.ledger == old(world.ledger)
      ensures preserved == old(preserved)
      ensures created == [] && uncertain == old(uncertain) && sent == old(sent) && mutationStarted == old(mutationStarted)
      ensures r.Ok? ==> bootstrap.Some?
      ensures passed == old(passed) && old(world.sightings) <= world.sightings
    {
      var gateway :- Live(Kustomization(Gateway));
      var workbench :- Live(Kustomization(WorkbenchIngress));
      var _ :- Require(gateway.body == settings.gatewayDormant && workbench.body == settings.workbenchDormant);
      bootstrap := Some(Bootstrap(gateway, workbench, settings.gatewayDormant, settings.workbenchDormant));
      r := Ok(());
    }

    /** Take down what must be the same afterwards. */
    method BindPreserved() returns (r: Result<()>)
      requires Running() && bootstrap.None?
      modifies world, `preserved
      ensures OnlyLooked() && passed == old(passed)
      ensures r.Ok? ==> KeysOf(preserved) == settings.preserved
    {
      hide Running;
      var found: seq<Preserved> := [];
      for i := 0 to |settings.preserved|
        invariant OnlyLooked() && passed == old(passed)
        invariant |found| == i && forall k :: 0 <= k < i ==> found[k].key == settings.preserved[k]
      {
        var live :- Live(settings.preserved[i]);
        found := found + [Preserved(settings.preserved[i], live)];
      }
      Keep(found);
      assert KeysOf(preserved) == settings.preserved;
      r := Ok(());
    }

    method Keep(found: seq<Preserved>)
      requires Running() && bootstrap.None?
      modifies `preserved
      ensures OnlyLooked() && preserved == found
    {
      preserved := found;
    }

    /** None of the six names may be taken: nothing is ever adopted. */
    method AllAbsent() returns (r: Result<()>)
      requires Running() && created == []
      modifies world, `passed
      ensures OnlyLooked()
      ensures r.Ok? ==> NamesWereFree(world.sightings, 6, |world.trace|)
                        && Passed(AbsencePreflight, 0, |world.trace|) in passed
    {
      hide Running;
      for i := 0 to 6
        invariant OnlyLooked() && NamesWereFree(world.sightings, i, |world.trace|)
      {
        var _ :- Absent(Target(ORDER[i]));
      }
      NotePreflight();
      r := Ok(());
    }

    ghost method NotePreflight()
      requires Running() && created == [] && NamesWereFree(world.sightings, 6, |world.trace|)
      modifies `passed
      ensures OnlyLooked() && Passed(AbsencePreflight, 0, |world.trace|) in passed
    {
      passed := passed + {Passed(AbsencePreflight, 0, |world.trace|)};
      Looked();
    }

    // ------------------------------------------------------------------ create

    twostate lemma Posted()
      requires old(Running()) && world.Grew() && |created| < 6 && created == old(created) && sent == old(sent) + 1 == |created| + 1
      requires world.trace == old(world.trace) + [PostSent(Post(Target(ORDER[|created|]), nonce, settings.render(ORDER[|created|])))]
      requires uncertain == Some(ORDER[|created|]) && mutationStarted && AllReleased(created) && ended.None?
      requires bootstrap == old(bootstrap) && bootstrap.Some? && passed == old(passed) && preserved == old(preserved)
      requires old(world.sightings) <= world.sightings
      requires !Unsuspended(old(world.trace), from)
      requires |created| == 0 ==> AllPassed(passed, BEFORE_MUTATION, 0, |old(world.trace)|)
      requires |created| == 5 ==> AllPassed(passed, BEFORE_INGRESS, 5, |old(world.trace)|)
                                  && Passed(DeploymentHealthy, 5, |old(world.trace)|) in passed
      ensures Running() && !Unsuspended(world.trace, from)
    {
      StillReal(old(world.sightings), world.sightings, passed);
      AllFreed(old(world.trace), world.trace, old(Basis()), Basis(), created);
      StillCreatedFreed(old(world.trace), world.trace, old(Basis()), Basis(), created);
      MorePrepared(old(world.trace), world.trace, old(Basis()), Basis());
      NextPost(before, old(world.trace), Post(Target(ORDER[|created|]), nonce, settings.render(ORDER[|created|])), |created|);
      hide Posts, Targets;
      AllStay(world, nonce, created);
    }

    /** Ready to create the next object. */
    ghost predicate MayCreate()
      reads this, world
    {
      && Running() && |created| == sent < 6 && uncertain.None? && AllReleased(created) && bootstrap.Some?
      && !Unsuspended(world.trace, from)
      && (|created| == 0 ==> AllPassed(passed, BEFORE_MUTATION, 0, |world.trace|))
      && (|created| == 5 ==> AllPassed(passed, BEFORE_INGRESS, 5, |world.trace|)
                             && Passed(DeploymentHealthy, 5, |world.trace|) in passed)
    }

    /** Send the next create. While its outcome is open, the name is noted as uncertain;
        only a definite conflict, or an exception from the request itself, clears that. */
    method SendCreate() returns (outcome: Outcome)
      requires MayCreate()
      modifies this, world
      ensures Running() && world.ledger == old(world.ledger) && created == old(created) && bootstrap == old(bootstrap)
      ensures sent == |created| + 1 && uncertain.Some? && AllReleased(created) && !Unsuspended(world.trace, from)
      ensures Linked(Some(outcome), world.trace, world.replies)
      ensures outcome.Conflict? ==> NoneInFlight(world.inflight, Target(ORDER[|created|]), nonce)
      ensures outcome.Bound? ==> outcome.item.logical == ORDER[|created|] && !outcome.item.nonceRemoved
                                 && Owned(world, nonce, outcome.item)
    {
      var l := ORDER[|created|];
      uncertain, mutationStarted, ended := Some(l), true, None;
      outcome := CreateTarget(world, l, settings.render(l), nonce);
      sent := sent + 1;
      Posted();
      NewestReply(old(world.trace), PostSent(Post(Target(l), nonce, settings.render(l))), from, world.replies, AlreadyExists);
      NewestReply(old(world.trace), PostSent(Post(Target(l), nonce, settings.render(l))), from, world.replies, Thrown);
      if outcome.Conflict? {
        NotOnItsWay(old(world.trace), Post(Target(l), nonce, settings.render(l)));
      }
    }

    /** Nothing was created for this place before, and the newest create is not on its way. */
    lemma NotOnItsWay(trace: seq<Event>, post: Post)
      requires Running() && world.trace == trace + [PostSent(post)] && post.nonce == nonce && sent > 0 && post.key == Target(ORDER[sent - 1])
      requires PostSent(post) !in trace ==> post !in world.inflight
      ensures NoneInFlight(world.inflight, post.key, nonce)
    {
      Once(ORDER[sent - 1]);
      assert IsPost(world.trace[|trace|], post.key, nonce);
      assert forall i :: 0 <= i < |trace| ==> trace[i] == world.trace[i] && !IsPost(trace[i], post.key, nonce);
      forall p | p in world.inflight && p.key == post.key
        ensures p.nonce != nonce
      {
        OnceIsOne(world.trace, post, p);
      }
    }

    /** Settle the outcome: bind the object, or clear the uncertainty, or keep it. If the
        object is not bound and the process lives on, the name stops being uncertain
        exactly on a definite conflict and on an exception out of the request itself,
        although after the latter the create may still be on its way. */
    method Bind(outcome: Outcome) returns (r: Result<()>)
      requires Running() && sent == |created| + 1 && uncertain.Some? && AllReleased(created) && !Unsuspended(world.trace, from)
      requires outcome.Bound? ==> outcome.item.logical == ORDER[|created|] && !outcome.item.nonceRemoved
                                  && Owned(world, nonce, outcome.item)
      requires Linked(Some(outcome), world.trace, world.replies)
      requires outcome.Conflict? ==> NoneInFlight(world.inflight, Target(ORDER[|created|]), nonce)
      modifies `created, `uncertain, `ended
      ensures Running() && ended == Some(outcome)
      ensures r.Ok? ==> |created| == sent == |old(created)| + 1 && uncertain.None?
                        && !created[|created| - 1].nonceRemoved
      ensures r.Err? ==> created == old(created) && (uncertain.None? <==> outcome.Conflict? || outcome.Interrupted?)
      ensures r.Err? && uncertain.Some? ==> uncertain == old(uncertain)
    {
      hide AllPrepared, Posts, Targets, PreflightIsReal, Unsuspended, Freed, Linked, NoneInFlight, FreshNonce;
      hide Target, Owned, Bare, Cluster.Valid;
      ended := Some(outcome);
      var cutOff: bool := *;     // an exception may still come before the item is kept
      r := Err(if outcome.Dead? then Died else Raised);
      if outcome.Conflict? || outcome.Interrupted? {
        uncertain := None;
      } else if outcome.Bound? && !cutOff {
        created, uncertain, r := created + [outcome.item], None, Ok(());
      }
    }

    lemma LinkStays(trace: seq<Event>)
      requires trace <= world.trace && forall q :: |trace| <= q < |world.trace| ==> !world.trace[q].PostSent?
      ensures Linked(ended, trace, world.replies) <==> Linked(ended, world.trace, world.replies)
    {
      ReplyStays(trace, world.trace, from, world.replies, AlreadyExists);
      ReplyStays(trace, world.trace, from, world.replies, Thrown);
    }

    /** Requests that create nothing keep everything, if they were prepared. */
    twostate lemma Advanced()
      requires old(Running()) && world.Grew() && NoCreate(world) && old(world.trace) <= world.trace
      requires created == old(created) && uncertain == old(uncertain) && sent == old(sent) > 0 && ended == old(ended)
      requires mutationStarted == old(mutationStarted) && bootstrap == old(bootstrap) && passed == old(passed)
      requires preserved == old(preserved)
      requires forall p :: |old(world.trace)| <= p < |world.trace| ==> !world.trace[p].PostSent? && Prepared(world.trace, p, Basis())
      requires Unsuspended(world.trace, from) ==> |created| == 6 && AllReleased(created)
      ensures Running()
    {
      LinkStays(old(world.trace));
      StillReal(old(world.sightings), world.sightings, passed);
      MorePrepared(old(world.trace), world.trace, old(Basis()), Basis());
      StillCreatedFreed(old(world.trace), world.trace, old(Basis()), Basis(), created);
      PostsUnchanged(old(world.trace), world.trace);
      AllStay(world, nonce, created);
    }

    twostate lemma StripsSent(new item: Created)
      requires old(Running()) && world.Grew() && OnlyStrips(old(world.trace), world.trace, 4, item, nonce)
      requires created == old(created) && uncertain == old(uncertain) && sent == old(sent) > 0 && ended == old(ended)
      requires mutationStarted == old(mutationStarted) && bootstrap == old(bootstrap) && passed == old(passed)
      requires preserved == old(preserved) && NoCreate(world)
      requires !Unsuspended(old(world.trace), from)
      ensures Running() && !Unsuspended(world.trace, from)
    {
      Advanced();
    }

    /** Take the nonce off the object that was just bound. */
    method Release() returns (r: Result<()>)
      requires Running() && |created| == sent > 0 && uncertain.None? && !Unsuspended(world.trace, from)
      modifies world, `created
      ensures Running() && world.ledger == old(world.ledger) && !Unsuspended(world.trace, from)
      ensures |created| == |old(created)| && uncertain.None?
      ensures r.Ok? ==> AllReleased(created)
    {
      var n := |created| - 1;
      var item := created[n];
      var stripped := RemoveNonce(world, item, settings.render(item.logical), nonce);
      StripsSent(item);
      var bare :- stripped;
      NowFree(n, item, |old(world.trace)|);
      Replace(n, bare);
      r := Ok(());
    }

    /** A successful removal is one in the eyes of the later requests. */
    lemma NowFree(n: nat, item: Created, q: nat)
      requires n < 6 && item.logical == ORDER[n] && from <= q < |world.trace|
      requires world.trace[q] == PatchSent(Target(item.logical), item.uid, DropNonce(nonce))
      requires Owned(world, nonce, item) && SeenClean(world.sightings, item, settings.render(item.logical), |world.trace|)
      ensures Freed(world.trace, Basis(), |world.trace|, ORDER[n])
    {
      var l := item.logical;
      var s :| s in world.sightings && s.key == Target(l) && s.at == |world.trace| && s.found.Some?
               && s.found.value.uid == item.uid && Clean(s.found.value, settings.render(l));
      assert ShowsFree(s, q, item.uid, |world.trace|, l, settings.render(l));
      assert FreedBy(world.trace, Basis(), q, item.uid, |world.trace|, l);
    }

    method Replace(n: nat, bare: Created)
      requires Running() && n == |created| - 1 && !Unsuspended(world.trace, from) && uncertain.None?
      requires bare.nonceRemoved && bare.logical == created[n].logical && Owned(world, nonce, bare) && Bare(world, bare)
      requires Freed(world.trace, Basis(), |world.trace|, ORDER[n])
      modifies `created
      ensures Running() && |created| == |old(created)| && AllReleased(created)
    {
      created := created[n := bare];
    }

    /** The outcome of the last create is known, if there was one. */
    ghost predicate Known()
      reads `ended, `mutationStarted
    {
      ended.Some? || !mutationStarted
    }

    /** One object of the fixed order, from its create to the loss of its nonce. */
    method CreateNext() returns (r: Result<()>)
      requires MayCreate()
      modifies this, world
      ensures Running() && world.ledger == old(world.ledger) && Known()
      ensures r.Ok? ==> |created| == sent == |old(created)| + 1 && uncertain.None? && AllReleased(created)
                        && !Unsuspended(world.trace, from) && bootstrap == old(bootstrap)
    {
      hide Running, Unsuspended, Owned;
      var outcome := SendCreate();
      var _ :- Bind(outcome);
      r := Release();
    }

    // -------------------------------------------------------------------- Flux

    lemma SomethingWasSent()
      requires Running() && sent > 0
      ensures |world.trace| > from
    {
      assert |Posts(world.trace)| > |Posts(before)|;
      SameOrLonger(before, world.trace);
    }

    twostate lemma Unsuspends(new owner: Owner)
      requires old(Running()) && world.Grew() && |created| == 6 && AllReleased(created)
      requires world.trace == old(world.trace) + [SuspendSent(Kustomization(owner), false)]
      requires created == old(created) && uncertain == old(uncertain) && sent == old(sent) && mutationStarted == old(mutationStarted)
      requires bootstrap == old(bootstrap) && passed == old(passed) && ended == old(ended)
      requires preserved == old(preserved) && NoCreate(world)
      requires Prepared(world.trace, |old(world.trace)|, Basis())
      ensures Running()
    {
      Advanced();
    }

    /** `cas_flux_v4`, towards reconciliation: only from exactly the bound version. */
    method Unsuspend(owner: Owner) returns (r: Result<()>)
      requires Running() && |created| == 6 && AllReleased(created) && bootstrap.Some?
      requires Prepared(world.trace + [SuspendSent(Kustomization(owner), false)], |world.trace|, Basis())
      modifies world
      ensures Running() && world.ledger == old(world.ledger) && world.sightings == old(world.sightings)
      ensures world.trace == old(world.trace) + [SuspendSent(Kustomization(owner), false)]
    {
      var bound := bootstrap.value.At(owner);
      ghost var asked := Basis();
      var answer := world.Suspend(Kustomization(owner), bound.version, false);
      StillPrepared(world.trace, world.trace, |old(world.trace)|, asked, Basis());
      Unsuspends(owner);
      var after :- answer;
      r := Require(after.uid == bound.uid && after.version > bound.version
                   && after.body == bootstrap.value.Dormant(owner).(suspended := false));
    }

    /** The gateway may be released now. */
    lemma MayReleaseFirst()
      requires Running() && |created| == sent == 6 && AllReleased(created)
      requires !Unsuspended(world.trace, from) && AllPassed(passed, BEFORE_FLUX, 6, |world.trace|)
      ensures Prepared(world.trace + [SuspendSent(Kustomization(Gateway), false)], |world.trace|, Basis())
    {
      SomethingWasSent();
      assert !world.trace[|world.trace| - 1].SuspendSent?;
      AllFreed(world.trace, world.trace + [SuspendSent(Kustomization(Gateway), false)], Basis(), Basis(), created);
    }

    /** And right after it the other one. */
    lemma MayReleaseSecond(n: nat)
      requires Running() && |created| == 6 && AllReleased(created) && n + 1 == |world.trace|
      requires world.trace[n] == SuspendSent(Kustomization(Gateway), false) && AllPassed(passed, BEFORE_FLUX, 6, n)
      ensures Prepared(world.trace + [SuspendSent(Kustomization(WorkbenchIngress), false)], |world.trace|, Basis())
    {
      AllFreed(world.trace, world.trace + [SuspendSent(Kustomization(WorkbenchIngress), false)], Basis(), Basis(), created);
    }

    /** `unsuspend_both_v4` */
    method UnsuspendBoth() returns (r: Result<()>)
      requires Running() && |created| == sent == 6 && AllReleased(created) && bootstrap.Some?
      requires !Unsuspended(world.trace, from) && AllPassed(passed, BEFORE_FLUX, 6, |world.trace|)
      modifies world
      ensures Running() && world.ledger == old(world.ledger)
      ensures r.Ok? ==> world.trace == old(world.trace) + [SuspendSent(Kustomization(Gateway), false),
                                                           SuspendSent(Kustomization(WorkbenchIngress), false)]
    {
      MayReleaseFirst();
      hide Running, Prepared, AllPassed, AllReleased, Kustomization;
      ghost var n := |world.trace|;
      r := Unsuspend(Gateway);
      if r.Ok? {
        assert world.trace[n] == SuspendSent(Kustomization(Gateway), false);
        MayReleaseSecond(n);
        r := Unsuspend(WorkbenchIngress);
      }
    }

    /** `semantic_postconditions_v4` */
    method VerifySemantics() returns (r: Result<()>)
      requires Running()
      modifies world
      ensures OnlyLooked() && old(world.sightings) <= world.sightings
      ensures r.Ok? ==> forall c <- created :: SeenActive(world.sightings, c, settings.render(c.logical), |world.trace|)
    {
      hide Running, Target, Clean;
      for i := 0 to |created|
        invariant OnlyLooked() && old(world.sightings) <= world.sightings
        invariant forall k :: 0 <= k < i ==> SeenActive(world.sightings, created[k], settings.render(created[k].logical), |world.trace|)
      {
        ghost var fewer := world.sightings;
        var c := created[i];
        var live :- Live(Target(c.logical));
        var _ :- Require(live.uid == c.uid && Clean(live, settings.render(c.logical).(tracking := Tracked)));
        forall k | 0 <= k < i
          ensures SeenActive(world.sightings, created[k], settings.render(created[k].logical), |world.trace|)
        {
          StillSeenActive(fewer, world.sightings, created[k], settings.render(created[k].logical), |world.trace|);
        }
      }
      r := Ok(());
    }

    // ----------------------------------------------------------------- the run

    ghost predicate Fresh()
      reads this, world
    {
      Running() && created == [] && sent == 0 && uncertain.None? && world.trace == before && bootstrap.None? && !mutationStarted
    }

    method Preflight() returns (r: Result<()>)
      requires Fresh()
      modifies this, world
      ensures Running() && world.trace == old(world.trace) && world.ledger == old(world.ledger)
      ensures created == [] && uncertain.None? && Known()
      ensures r.Ok? ==> MayCreate() && bootstrap.Some?
    {
      assert !Unsuspended(world.trace, from);
      hide Running, Unsuspended, InOrder;
      var _ :- RunChecks(AT_START);
      var _ :- BindPreserved();
      var _ :- BindFlux();
      var _ :- AllAbsent();
      var _ :- RunChecks(AFTER_ABSENCE);
      r := Ok(());
    }

    /** The network policies, the ServiceAccount, the Service and the Deployment, each
        without its nonce before the next one is created; then the Deployment's health. */
    method CreateWorkload() returns (r: Result<()>)
      requires MayCreate() && created == [] && Known()
      modifies this, world
      ensures Running() && world.ledger == old(world.ledger) && Known()
      ensures r.Ok? ==> |created| == sent == 5 && uncertain.None? && AllReleased(created) && bootstrap == old(bootstrap)
                        && !Unsuspended(world.trace, from) && Passed(DeploymentHealthy, 5, |world.trace|) in passed
    {
      hide Running, Unsuspended, AllReleased, AllPassed, InOrder;
      for i := 0 to 4
        invariant MayCreate() && |created| == i && world.ledger == old(world.ledger) && bootstrap == old(bootstrap) && Known()
      {
        var _ :- CreateNext();
      }
      var _ :- CreateNext();
      r := Pass(DeploymentHealthy);
    }

    method CreateExposure() returns (r: Result<()>)
      requires Running() && |created| == sent == 5 && uncertain.None? && AllReleased(created) && bootstrap.Some?
      requires !Unsuspended(world.trace, from) && Passed(DeploymentHealthy, 5, |world.trace|) in passed && Known()
      modifies this, world
      ensures Running() && world.ledger == old(world.ledger) && Known()
      ensures r.Ok? ==> |created| == sent == 6 && uncertain.None? && AllReleased(created) && bootstrap == old(bootstrap)
                        && !Unsuspended(world.trace, from)
    {
      hide Running, Unsuspended, AllReleased, AllPassed, InOrder;
      var _ :- RunChecks(BEFORE_INGRESS);
      r := CreateNext();
    }

    method HandToFlux() returns (r: Result<()>)
      requires Running() && |created| == sent == 6 && uncertain.None? && AllReleased(created) && bootstrap.Some?
      requires !Unsuspended(world.trace, from)
      modifies world, `passed
      ensures Running() && world.ledger == old(world.ledger) && created == old(created)
      ensures r.Ok? ==> Completed(world.trace, world.sightings, passed, created, settings.render)
    {
      Ordered();
      hide Running, Unsuspended, AllPassed, InOrder, SeenActive, Kustomization;
      var _ :- RunChecks(BEFORE_FLUX);
      var _ :- UnsuspendBoth();
      ghost var trace := world.trace;
      var _ :- RunChecks(AFTER_FLUX);
      ghost var enough := passed;
      var _ :- VerifySemantics();
      var _ :- RunChecks(BEFORE_SUCCESS);
      MorePassed(enough, passed, AFTER_FLUX, 6, |trace|);
      r := Ok(());
    }

    lemma Ordered()
      requires Running()
      ensures InOrder(created)
    {
    }

    /** The whole forward path. */
    method Forward() returns (r: Result<()>)
      requires Fresh()
      modifies this, world
      ensures Running() && world.ledger == old(world.ledger) && Known()
      ensures r.Ok? ==> Completed(world.trace, world.sightings, passed, created, settings.render)
    {
      hide Running, Unsuspended, AllReleased, InOrder, AllPassed;
      var _ :- Preflight();
      var _ :- CreateWorkload();
      var _ :- CreateExposure();
      r := HandToFlux();
    }

    /** The durable receipt of success is the commit point. */
    method CommitSuccess() returns (r: Result<()>)
      requires Running()
      modifies world
      ensures Running() && world.trace == old(world.trace) && world.sightings == old(world.sightings)
      ensures world.ledger == old(world.ledger) || world.ledger == old(world.ledger) + [Activated(created)]
      ensures r.Ok? ==> world.ledger == old(world.ledger) + [Activated(created)]
    {
      r := world.Commit(Activated(created));
    }

    /** Before the rollback, look once more for a create that is still unresolved. */
    method ResolveUncertain() returns (dead: bool)
      requires Running()
      modifies this, world
      ensures Running() && world.trace == old(world.trace) && world.ledger == old(world.ledger)
      ensures Firmer(old(Basis()), Basis()) && passed == old(passed) && bootstrap == old(bootstrap)
      ensures mutationStarted == old(mutationStarted) && sent == old(sent) && ended == old(ended)
      ensures world.replies == old(world.replies)
    {
      dead := false;
      if uncertain.Some? {
        var l := uncertain.value;
        var found, _, _ := Rediscover(world, l, settings.render(l), nonce, settings.patience);
        Looked();
        dead := found == Err(Died);
        if found.Ok? && found.value.Some? {
          Adopt(found.value.value);
        }
      }
    }

    /** What was uncertain is bound after all. */
    method Adopt(item: Created)
      requires Running() && uncertain == Some(item.logical) && !item.nonceRemoved && Owned(world, nonce, item)
      modifies `created, `uncertain
      ensures Running()
    {
      hide AllPrepared, Posts, Targets, PreflightIsReal, Unsuspended, Freed, Linked, NoneInFlight, FreshNonce;
      created, uncertain := created + [item], None;
    }

    function RollbackCase(): Case
      reads this
    {
      Case(settings.render, nonce, created, bootstrap, preserved, uncertain, true, true, false, settings.timing)
    }

    lemma RollbackCaseValid()
      requires Running() && mutationStarted
      ensures RollbackCase().bootstrap.Some? && KeysOf(RollbackCase().preserved) == settings.preserved
      ensures world.Valid() && RollbackCase().Valid() && forall c <- RollbackCase().created :: Owned(world, nonce, c)
    {
      OrderGivesCase(created);
    }

    lemma Counted()
      requires Running()
      ensures sent <= 6 && Posts(world.trace) == Posts(before) + Targets(sent)
    {
    }

    lemma EndingIsReplied()
      requires Running() && Known() && mutationStarted
      ensures from == |before|
      ensures (Cleared() <==> EndedWithout(world.trace, from, world.replies))
      ensures ended == Some(Interrupted) <==> LastReply(world.trace, from, world.replies, Thrown)
    {
    }

    lemma CertainUnlessOpen()
      requires Running()
      ensures uncertain.None? <==> |created| == sent || Cleared()
      ensures OnlyNextOnItsWay(world.inflight, nonce, created, uncertain.Some? || ended == Some(Interrupted))
    {
      forall p | p in world.inflight && p.nonce == nonce
        ensures (uncertain.Some? || ended == Some(Interrupted)) && |created| < 6 && p.key == Target(ORDER[|created|])
      {
        OnItsWay(p);
      }
    }

    /** A create of this run that is on its way is the last one sent, is not bound, and is
        noted as uncertain or was cut off. */
    lemma OnItsWay(p: Post)
      requires Running() && p in world.inflight && p.nonce == nonce
      ensures |created| < 6 && p.key == Target(ORDER[|created|]) && (uncertain.Some? || ended == Some(Interrupted))
    {
      var n := PlaceOfPost(p);
      Once(ORDER[n]);
      if n < |created| {
        OwnedHasLanded(world, nonce, created[n]);
      }
      assert n == |created| == sent - 1;
    }

    /** What was created under this nonce was created by this run. */
    lemma OwnAreLater(i: nat)
      requires Running() && i < |world.trace| && world.trace[i].PostSent? && world.trace[i].post.nonce == nonce
      ensures from <= i
    {
      assert forall k :: 0 <= k < |before| ==> before[k] == world.trace[k] && before[k] in before;
    }

    /** A create of this run is for one of the places reached so far. */
    lemma PlaceOfPost(p: Post) returns (n: nat)
      requires Running() && PostSent(p) in world.trace && p.nonce == nonce
      ensures n < sent && p.key == Target(ORDER[n])
    {
      var i :| 0 <= i < |world.trace| && world.trace[i] == PostSent(p);
      OwnAreLater(i);
      PostsPrefix(world.trace, i);
      PostsGrow(world.trace, |before|, i);
      assert world.trace[..|before|] == before;
      n := |Posts(world.trace[..i])| - |Posts(before)|;
      assert p.key == Targets(sent)[n];
    }

    /** Each place is created at most once under this nonce. */
    lemma Once(l: Logical)
      requires Running()
      ensures SentOnce(world.trace, Target(l), nonce)
    {
      IsProper();
      forall i, j | 0 <= i < j < |world.trace| && IsPost(world.trace[i], Target(l), nonce)
        ensures !IsPost(world.trace[j], Target(l), nonce)
      {
        OwnAreLater(i);
        if world.trace[j].PostSent? {
          EachTargetOnce(before, world.trace, i, j);
          TargetsDiffer();
        }
      }
    }

    lemma MadeStays(undo: Rollback)
      requires undo.Running() && undo.world == world
      ensures undo.from == |undo.before| && undo.before <= world.trace && world.inflight <= undo.inflightBefore && world.replies == undo.repliesBefore
      ensures forall u <- undo.madeBefore :: u in world.made && world.made[u] == undo.madeBefore[u]
    {
    }

    method RecordFailure(undo: Rollback, report: Report) returns (r: Result<()>)
      requires undo.world == world && undo.Running() && (report.complete ==> undo.Succeeded(report))
      modifies world
      ensures undo.Running() && (report.complete ==> undo.Succeeded(report))
      ensures world.trace == old(world.trace) && world.sightings == old(world.sightings) && world.made == old(world.made)
      ensures world.inflight == old(world.inflight) && world.replies == old(world.replies)
      ensures world.ledger == old(world.ledger) || world.ledger == old(world.ledger) + [Failed(report, created)]
    {
      r := world.Commit(Failed(report, created));
    }

    /** A failure before anything was created. */
    method RecordUntouched() returns (r: Result<()>)
      requires Running()
      modifies world
      ensures r.Err? && world.trace == old(world.trace) && Firmer(old(Basis()), Basis())
      ensures world.ledger == old(world.ledger) || exists report, items ::
                world.ledger == old(world.ledger) + [Failed(report, items)]
    {
      var receipt := Failed(Report(true, true, false, 0, [], None), []);
      var committed := world.Commit(receipt);
      assert world.ledger == old(world.ledger) || world.ledger == old(world.ledger) + [Failed(receipt.rollback, receipt.created)];
      r := Err(if committed.Err? then committed.fault else Raised);
    }

    /** The rollback takes over after the requests in `trace`. It has what the run knows;
        no name is uncertain to it if and only if each create has its object bound, or the
        last of them ended in a definite conflict or in an exception out of the request;
        and in all of this time no create of the run is on its way but that last one. */
    ghost predicate TakesOver(undo: Rollback, trace: seq<Event>)
      reads this, world, undo, undo.world
    {
      && undo.world == world && undo.before == trace && undo.Running()
      && Isolated(world.trace, |trace|, |world.trace| - 1)
      && undo.c.nonce == nonce && undo.c.bootstrap.Some? && undo.c.rendered && undo.c.rebind
      && KeysOf(undo.c.preserved) == settings.preserved
      && (undo.c.uncertain.None? <==> |undo.c.created| == sent || EndedWithout(trace, |before|, world.replies))
      && OnlyNextOnItsWay(world.inflight, nonce, undo.c.created,
                          undo.c.uncertain.Some? || LastReply(trace, |before|, world.replies, Thrown))
    }

    /** What any exception leads to, once something may have been created. */
    method Undo() returns (r: Result<()>, undo: Rollback?)
      requires Running() && mutationStarted && Known()
      modifies this, world
      ensures r.Err? && old(world.trace) <= world.trace && Firmer(old(Basis()), Basis()) && passed == old(passed)
      ensures sent == old(sent) && world.replies == old(world.replies)
      ensures undo == null ==> r.fault == Died && world.trace == old(world.trace) && world.ledger == old(world.ledger)
      ensures undo != null ==> fresh(undo) && TakesOver(undo, old(world.trace))
      ensures world.ledger == old(world.ledger) || exists report ::
                && world.ledger == old(world.ledger) + [Failed(report, created)] && undo != null
                && (report.complete ==> undo.Succeeded(report))
    {
      undo := null;
      hide Running, TakesOver, Rollback.Succeeded;
      var dead := ResolveUncertain();
      if dead {
        return Err(Died), null;
      }
      r, undo := Perform();
    }

    /** The rollback and its receipt. */
    method Perform() returns (r: Result<()>, undo: Rollback)
      requires Running() && mutationStarted && Known()
      modifies world
      ensures r.Err? && old(world.trace) <= world.trace && Firmer(old(Basis()), Basis()) && world.replies == old(world.replies)
      ensures fresh(undo) && TakesOver(undo, old(world.trace))
      ensures world.ledger == old(world.ledger) || exists report ::
                world.ledger == old(world.ledger) + [Failed(report, created)] && (report.complete ==> undo.Succeeded(report))
    {
      hide Running, Rollback.Running, Rollback.Succeeded, Isolated, OnlyNextOnItsWay, EndedWithout, LastReply;
      RollbackCaseValid();
      CertainUnlessOpen();
      EndingIsReplied();
      var clock: nat :| clock >= 0;
      undo := new Rollback(world, RollbackCase(), clock, {}, |world.foreign|, {});
      var report := undo.Execute();
      MadeStays(undo);
      FewerOnTheirWay(world.inflight, undo.inflightBefore, nonce, created, uncertain.Some? || ended == Some(Interrupted));
      if report.Err? {
        r := Err(Died);
      } else {
        var committed := RecordFailure(undo, report.value);
        r := Err(if committed.Err? then committed.fault else Raised);
      }
    }

    /** What holds of the forward part of a run, however it ended. */
    ghost predicate Proper(start: seq<Event>, trace: seq<Event>)
      reads this, world
    {
      && start <= trace && |start| == from && AllPrepared(trace, Basis())
      && exists n: nat :: n <= 6 && Posts(trace) == Posts(start) + Targets(n)
    }

    lemma IsProper()
      requires Running()
      ensures Proper(before, world.trace)
    {
      assert sent <= 6 && Posts(world.trace) == Posts(before) + Targets(sent);
    }

    /** It stays so while more is learned. */
    twostate lemma StillProper(new start: seq<Event>, new trace: seq<Event>)
      requires old(Proper(start, trace)) && Firmer(old(Basis()), Basis())
      ensures Proper(start, trace)
    {
      MorePrepared(trace, trace, old(Basis()), Basis());
    }

    /** A success receipt in the ledger has everything behind it. */
    ghost predicate Deserved(ledger: seq<Receipt>, since: nat, trace: seq<Event>, sightings: seq<Sighting>)
      reads `passed
    {
      forall i :: since <= i < |ledger| && ledger[i].Activated? ==>
                    Completed(trace, sightings, passed, ledger[i].created, settings.render)
    }

    lemma StillDeserved(ledger: seq<Receipt>, more: seq<Receipt>, since: nat, trace: seq<Event>,
                        few: seq<Sighting>, many: seq<Sighting>)
      requires ledger <= more && few <= many && Deserved(ledger, since, trace, few)
      requires forall i :: |ledger| <= i < |more| ==> more[i].Failed?
      ensures Deserved(more, since, trace, many)
    {
      forall i | since <= i < |more| && more[i].Activated?
        ensures Completed(trace, many, passed, more[i].created, settings.render)
      {
        assert more[i] == ledger[i];
        StillCompleted(trace, few, many, ledger[i].created);
      }
    }

    lemma StillCompleted(trace: seq<Event>, few: seq<Sighting>, many: seq<Sighting>, done: seq<Created>)
      requires few <= many && Completed(trace, few, passed, done, settings.render)
      ensures Completed(trace, many, passed, done, settings.render)
    {
      forall c <- done
        ensures SeenActive(many, c, settings.render(c.logical), |trace|)
      {
        StillSeenActive(few, many, c, settings.render(c.logical), |trace|);
      }
    }

    /** The forward path and its receipt. */
    method Try() returns (r: Result<()>)
      requires Fresh()
      modifies this, world
      ensures Running() && Proper(before, world.trace) && Known()
      ensures r.Ok? ==> world.ledger == old(world.ledger) + [Activated(created)]
      ensures old(world.ledger) <= world.ledger && Deserved(world.ledger, |old(world.ledger)|, world.trace, world.sightings)
      ensures forall i :: |old(world.ledger)| <= i < |world.ledger| ==> world.ledger[i].Activated?
    {
      r := Forward();
      IsProper();
      if r.Ok? {
        r := CommitSuccess();
      }
    }

    /** A failure receipt says complete only of a rollback that has proved it. */
    ghost predicate Deserves(undo: Rollback, receipt: Receipt)
      reads undo.world`sightings, undo.world`trace, undo`stamps
    {
      receipt.Failed? && receipt.rollback.complete ==> undo.Succeeded(receipt.rollback)
    }

    /** `activate`: the forward path, and on any exception the rollback, as soon as a
        create may have been sent. `forward` counts the requests of the forward path, and
        `sent` the creates among them. The rollback takes no name for uncertain if and only
        if each of those creates has its object bound, or the last of them ended in a
        definite conflict or in an exception out of the request. */
    method Activate() returns (r: Result<()>, undo: Rollback?, ghost forward: nat)
      requires Fresh()
      modifies this, world
      ensures forward <= |world.trace| && Proper(before, world.trace[..forward])
      ensures old(world.ledger) <= world.ledger && Deserved(world.ledger, |old(world.ledger)|, world.trace[..forward], world.sightings)
      ensures r.Ok? ==> undo == null && world.ledger == old(world.ledger) + [Activated(created)]
      ensures undo == null ==> forward == |world.trace|
      ensures undo != null ==> fresh(undo) && TakesOver(undo, world.trace[..forward])
      ensures sent <= 6 && Posts(world.trace[..forward]) == Posts(before) + Targets(sent)
      ensures r.Ok? ==> Running()
      ensures undo != null ==> forall i :: |old(world.ledger)| <= i < |world.ledger| ==>
                Deserves(undo, world.ledger[i])
      ensures r == Err(Raised) && world.trace != before ==> undo != null
    {
      hide Running, Completed, Proper, Deserved, TakesOver, Rollback.Succeeded, Posts, Targets;
      undo := null;
      r := Try();
      forward := |world.trace|;
      ghost var trace := world.trace;
      Counted();
      if r == Err(Raised) {
        r, undo := Recover(|old(world.ledger)|);
      }
      assert world.trace[..forward] == trace;
    }

    /** The exception handler of `activate`. */
    method Recover(ghost since: nat) returns (r: Result<()>, undo: Rollback?)
      requires Running() && Proper(before, world.trace) && Known()
      requires since <= |world.ledger| && Deserved(world.ledger, since, world.trace, world.sightings)
      modifies this, world
      ensures r.Err? && old(world.trace) <= world.trace && sent == old(sent)
      ensures Proper(before, old(world.trace)) && old(world.ledger) <= world.ledger
      ensures Deserved(world.ledger, since, old(world.trace), world.sightings)
      ensures undo == null ==> world.trace == old(world.trace)
      ensures undo == null && r.fault.Raised? ==> world.trace == before
      ensures undo != null ==> fresh(undo) && TakesOver(undo, old(world.trace))
      ensures undo != null ==> forall i :: |old(world.ledger)| <= i < |world.ledger| ==> Deserves(undo, world.ledger[i])
    {
      SentOnlyThen();
      hide Running, Completed, Deserved, Proper, TakesOver, Rollback.Succeeded;
      undo := null;
      if mutationStarted {
        r, undo := Undo();
      } else {
        r := RecordUntouched();
      }
      StillDeserved(old(world.ledger), world.ledger, since, old(world.trace), old(world.sightings), world.sightings);
      StillProper(before, old(world.trace));
    }

    lemma SentOnlyThen()
      requires Running()
      ensures world.trace != before ==> mutationStarted
    {
    }

    // ------------------------------------------------------------ what follows

    /** Once the receipt of a failed activation says that the rollback is complete, no
        create of this run can land any more, unless the last one ended in an exception out
        of the request. */
    lemma CompleteExcludesLateCreates(undo: Rollback, trace: seq<Event>, receipt: Receipt)
      requires TakesOver(undo, trace) && Deserves(undo, receipt) && receipt.Failed? && receipt.rollback.complete
      requires !LastReply(trace, |before|, world.replies, Thrown)
      ensures forall p <- world.inflight :: p.nonce != nonce
    {
      hide WasQuiet, ClearRound;
    }

    /** And none can once all six are bound. */
    lemma SuccessExcludesLateCreates()
      requires Running() && |created| == 6
      ensures forall p <- world.inflight :: p.nonce != nonce
    {
      forall p | p in world.inflight
        ensures p.nonce != nonce
      {
        if p.nonce == nonce {
          OnItsWay(p);
        }
      }
    }

    /** No Kustomization is released while an own object carries the nonce: before either
        of the two requests, each of the six objects, made by this run's own create, had
        its nonce taken off by this run and was seen without it, as desired. By then a
        nonce that is gone never comes back. */
    lemma FluxRunsWithoutNonces(start: seq<Event>, trace: seq<Event>, p: nat, i: nat) returns (q: nat, uid: nat)
      requires Proper(start, trace) && |start| <= p < |trace| && trace[p].SuspendSent? && i < 6
      ensures |start| <= q < p && trace[q] == PatchSent(Target(ORDER[i]), uid, DropNonce(nonce))
      ensures uid in world.made && world.made[uid].key == Target(ORDER[i]) && world.made[uid].nonce == nonce
      ensures exists s <- world.sightings :: ShowsFree(s, q, uid, p, ORDER[i], settings.render(ORDER[i]))
    {
      assert Prepared(trace, p, Basis());
      assert Freed(trace, Basis(), p, ORDER[i]);
      q, uid :| from <= q < p <= |trace| && FreedBy(trace, Basis(), q, uid, p, ORDER[i]);
    }

    /** When the Ingress is requested, the Deployment was found healthy, the policies
        were scanned and the database was checked, all with the five other objects
        bound, and with no request in between; and each of the five had lost its nonce. */
    lemma ExposureComesAfterTheChecks(start: seq<Event>, trace: seq<Event>, p: nat)
      requires Proper(start, trace) && |start| <= p < |trace|
      requires trace[p].PostSent? && trace[p].post.key == Target(GatewayIngress)
      ensures forall check <- [DeploymentHealthy, PolicyBeforeIngress, Database] :: Passed(check, 5, p) in passed
      ensures forall i :: 0 <= i < 5 ==> Freed(trace, Basis(), p, ORDER[i])
    {
      assert Prepared(trace, p, Basis());
      assert PolicyBeforeIngress in BEFORE_INGRESS && Database in BEFORE_INGRESS;
    }

    /** Each of the six is requested at most once, and in the fixed order. */
    lemma EachTargetOnce(start: seq<Event>, trace: seq<Event>, p: nat, q: nat)
      requires Proper(start, trace) && |start| <= p < q < |trace| && trace[p].PostSent? && trace[q].PostSent?
      ensures exists i, j :: 0 <= i < j < 6 && trace[p].post.key == Target(ORDER[i]) && trace[q].post.key == Target(ORDER[j])
    {
      var n: nat :| n <= 6 && Posts(trace) == Posts(start) + Targets(n);
      var i, j := |Posts(trace[..p])| - |Posts(start)|, |Posts(trace[..q])| - |Posts(start)|;
      PostsPrefix(trace, p);
      PostsPrefix(trace, q);
      PostsGrow(trace, |start|, p);
      PostsGrow(trace, p + 1, q);
      assert trace[..|start|] == start;
      assert trace[p].post.key == Targets(n)[i] && trace[q].post.key == Targets(n)[j];
    }
  }

  // -------------------------------------------- what a complete report leaves open

  const DORMANT := Body(0, true, Untracked)
  const CUT_OFF := Post(Target(GatewayNetworkPolicy), 0, Body(1, false, Untracked))

  function SampleSettings(quiet: nat): Settings {
    Settings((l: Logical) => Body(1, false, Untracked), DORMANT, DORMANT, [], Timing(quiet + 1, quiet, 1), 0)
  }

  function SampleBootstrap(): Bootstrap {
    Bootstrap(Obj(0, 0, Unmarked, DORMANT), Obj(1, 0, Unmarked, DORMANT), DORMANT, DORMANT)
  }

  function SampleCase(quiet: nat): Case {
    Case(SampleSettings(quiet).render, 0, [], Some(SampleBootstrap()), [], None, true, true, false, Timing(quiet + 1, quiet, 1))
  }

  /** The reads of the absence preflight. */
  function FreeNames(): (s: seq<Sighting>)
    ensures |s| == 6 && NamesWereFree(s, 6, 0)
  {
    var s := seq(6, i requires 0 <= i < 6 => Sighting(Target(ORDER[i]), None, 0));
    assert forall i :: 0 <= i < 6 ==> s[i] == Sighting(Target(ORDER[i]), None, 0);
    s
  }

  /** After those reads: all six names absent twice, and then both Kustomizations suspended. */
  lemma SampleReads(quiet: nat) returns (s: seq<Sighting>, stamps: seq<Stamp>)
    ensures Stamped(stamps, quiet) && |stamps| == |s| == 20 && FreeNames() <= s
    ensures WasQuiet(s, stamps, 6, 18, quiet, quiet + 1)
    ensures SawBothSuspended(s, 18, 20, SampleBootstrap())
  {
    hide ClearRound, WasQuiet, Target;
    var absent, times := AnswersMayLieCloser(quiet);
    var early := seq(6, i => Stamp(0, 0));
    LaterQuiet(FreeNames(), early, absent, times, 0, 12, quiet, quiet + 1);
    var free, all := FreeNames() + absent, early + times;
    s := free + [Sighting(Kustomization(Gateway), Some(Obj(0, 0, Unmarked, DORMANT)), 1),
                 Sighting(Kustomization(WorkbenchIngress), Some(Obj(1, 0, Unmarked, DORMANT)), 1)];
    stamps := all + [Stamp(quiet, quiet), Stamp(quiet, quiet)];
    WasQuietMore(free, s, all, stamps, 6, 18, quiet, quiet + 1);
    assert Shows(s[18], Suspended(Kustomization(Gateway), 0)) && Shows(s[19], Suspended(Kustomization(WorkbenchIngress), 1));
  }

  /** Those reads are all that a rollback has to have behind it when nothing was bound. */
  lemma SampleSucceeds(undo: Rollback, quiet: nat)
    requires undo.c == SampleCase(quiet) && undo.lo == 6 && undo.deadline == quiet + 1 && |undo.world.sightings| == 20
    requires WasQuiet(undo.world.sightings, undo.stamps, 6, 18, quiet, quiet + 1)
    requires SawBothSuspended(undo.world.sightings, 18, 20, SampleBootstrap())
    requires undo.Honest() && undo.deleted == []
    ensures undo.Succeeded(Report(true, true, true, 2, [], None))
  {
    hide WasQuiet, SawBothSuspended;
    assert undo.SurroundingsSeen(18);
    assert Logicals([]) == [] == DeletionOrder(undo.c);
  }

  /** An activation that has just sent its first create, which was cut off by an exception
      out of the request and is still on its way. */
  method SampleActivation(quiet: nat) returns (world: World, run: Activation)
    ensures fresh(world) && fresh(run) && run.world == world && world.Valid() && run.Running()
    ensures world.trace == [PostSent(CUT_OFF)] && run.before == [] && world.sightings == FreeNames() && world.inflight == {CUT_OFF}
    ensures run.RollbackCase() == SampleCase(quiet) && run.settings == SampleSettings(quiet) && run.nonce == 0
    ensures run.ended == Some(Interrupted) && run.mutationStarted && run.sent == 1
  {
    hide Target, FreeNames, Cluster.Valid, Activation.Running;
    world := SampleWorld();
    run := new Activation(world, SampleSettings(quiet), 0);
    Happen(world);
    run.bootstrap, run.mutationStarted, run.sent, run.ended := Some(SampleBootstrap()), true, 1, Some(Interrupted);
    run.passed := set check <- BEFORE_MUTATION :: Passed(check, 0, 0);
    SampleRuns(run);
  }

  method SampleWorld() returns (world: World)
    ensures fresh(world) && world.Valid() && world.trace == [] && world.nextNonce == 1 && world.made == map[] && world.inflight == {}
    ensures world.sightings == FreeNames()
  {
    hide FreeNames;
    world := new Cluster();
    world.nextNonce, world.sightings := 1, FreeNames();
  }

  /** The create leaves and is cut off. */
  method Happen(world: World)
    requires world.Valid() && world.trace == [] && world.nextNonce == 1 && world.made == map[] && world.inflight == {}
    modifies world
    ensures world.Valid() && world.trace == [PostSent(CUT_OFF)] && world.inflight == {CUT_OFF}
    ensures world.replies == map[0 := Thrown] && world.nextNonce == 1 && world.sightings == old(world.sightings)
  {
    world.trace, world.basis, world.seen := [PostSent(CUT_OFF)], [None], [|world.sightings|];
    world.inflight, world.replies, world.ledger, world.upTo, world.applied := {CUT_OFF}, map[0 := Thrown], [], [], map[];
    world.objects := map[];
  }

  lemma SampleRuns(run: Activation)
    requires run.world.Valid() && run.settings.Valid() && run.nonce == 0 < run.world.nextNonce
    requires run.before == [] && run.from == 0 && run.created == [] && run.uncertain.None? && run.mutationStarted
    requires run.sent == 1 && run.ended == Some(Interrupted) && run.passed == set check <- BEFORE_MUTATION :: Passed(check, 0, 0)
    requires run.bootstrap.Some? && run.bootstrap.value.Valid() && KeysOf(run.preserved) == run.settings.preserved
    requires run.world.trace == [PostSent(CUT_OFF)] && run.world.replies == map[0 := Thrown]
    requires run.world.sightings == FreeNames()
    ensures run.Running()
  {
    var trace := run.world.trace;
    NextPost([], [], CUT_OFF, 0);
    assert [] + [PostSent(CUT_OFF)] == trace;
    NewestReply([], PostSent(CUT_OFF), 0, run.world.replies, AlreadyExists);
    NewestReply([], PostSent(CUT_OFF), 0, run.world.replies, Thrown);
    assert Prepared(trace, 0, run.Basis());
  }

  /** A rollback that sent nothing may have made these reads. */
  method SampleRun(world: World, quiet: nat, ghost s: seq<Sighting>, ghost stamps: seq<Stamp>) returns (undo: Rollback)
    requires world.Valid() && world.sightings == FreeNames() <= s && |stamps| == |s| && Stamped(stamps, quiet)
    modifies world
    ensures world.trace == old(world.trace) && world.inflight == old(world.inflight) && world.sightings == s
    ensures world.replies == old(world.replies)
    ensures fresh(undo) && undo.world == world && undo.Running() && undo.Honest() && undo.c == SampleCase(quiet)
    ensures undo.lo == 6 && undo.deadline == quiet + 1 && undo.stamps == stamps && undo.deleted == [] && undo.before == world.trace
  {
    assert SampleCase(quiet).Valid() && SampleCase(quiet).created == [];
    undo := new Rollback(world, SampleCase(quiet), 0, {}, |world.foreign|, {});
    hide SampleCase, Stamped, FreeNames;
    world.sightings, undo.stamps, undo.clock := s, stamps, quiet;
  }

  /** After an ending in an exception out of the request, everything that
      `CompleteExcludesLateCreates` asks for may hold, with the create still on its way. */
  method CompleteWithACreateOnItsWay(quiet: nat) returns (run: Activation, undo: Rollback, report: Report)
    ensures run.TakesOver(undo, undo.before) && run.Deserves(undo, Failed(report, [])) && report.complete
    ensures LastReply(undo.before, |run.before|, run.world.replies, Thrown) && undo.c.timing.quiet == quiet
    ensures exists post <- run.world.inflight :: post.nonce == run.nonce && PostSent(post) in undo.before
  {
    var world: World;
    world, run := SampleActivation(quiet);
    ghost var s, stamps := SampleReads(quiet);
    run.EndingIsReplied();
    run.CertainUnlessOpen();
    hide WasQuiet, SawBothSuspended, Rollback.Running, Rollback.Succeeded, Cluster.Valid, Activation.Running, Activation.TakesOver;
    hide LastReply, EndedWithout, OnlyNextOnItsWay, Rollback.Honest, SampleBootstrap, SampleSettings, FreeNames;
    undo := SampleRun(world, quiet, s, stamps);
    report := Report(true, true, true, 2, [], None);
    SampleSucceeds(undo, quiet);
    SampleTakesOver(run, undo, quiet);
    assert CUT_OFF in run.world.inflight;
  }

  lemma SampleTakesOver(run: Activation, undo: Rollback, quiet: nat)
    requires undo.world == run.world && undo.Running() && undo.c == SampleCase(quiet) && undo.before == run.world.trace
    requires run.nonce == 0 && run.settings == SampleSettings(quiet)
    requires LastReply(undo.before, |run.before|, run.world.replies, Thrown) && OnlyNextOnItsWay(run.world.inflight, 0, [], true)
    ensures run.TakesOver(undo, undo.before)
  {
    hide LastReply, OnlyNextOnItsWay, Rollback.Running;
  }

  /** And it may be so in every run that ended like this, as long as that create has not
      landed: put it on its way, and nothing that the run, its rollback and its receipt rest
      on is any different. */
  method MayStillBeOnItsWay(run: Activation, undo: Rollback, ghost trace: seq<Event>, ghost receipt: Receipt, post: Post)
    requires run.TakesOver(undo, trace) && run.Deserves(undo, receipt) && receipt.Failed? && receipt.rollback.complete
    requires LastReply(trace, |run.before|, run.world.replies, Thrown) && PostSent(post) in trace
    requires |undo.c.created| < 6 && post.key == Target(ORDER[|undo.c.created|])
    requires forall u <- run.world.made :: run.world.made[u] != post
    modifies run.world`inflight, undo`inflightBefore
    ensures run.world.inflight == old(run.world.inflight) + {post}
    ensures run.TakesOver(undo, trace) && run.Deserves(undo, receipt)
  {
    hide LastReply, EndedWithout, Isolated, Target, Rollback.Running, Rollback.Succeeded;
    PutOnItsWay(undo, post);
  }

  method PutOnItsWay(undo: Rollback, post: Post)
    requires undo.Running() && PostSent(post) in undo.before && forall u <- undo.world.made :: undo.world.made[u] != post
    modifies undo.world`inflight, undo`inflightBefore
    ensures undo.Running() && undo.world.inflight == old(undo.world.inflight) + {post}
  {
    Reach(undo.world, post);
    undo.inflightBefore := undo.inflightBefore + {post};
    hide Cluster.Valid, AllJustified, Booked, AllAccounted, AllMissing;
  }

  method Reach(world: World, post: Post)
    requires world.Valid() && PostSent(post) in world.trace && forall u <- world.made :: world.made[u] != post
    modifies world`inflight
    ensures world.Valid() && world.inflight == old(world.inflight) + {post}
  {
    world.inflight := world.inflight + {post};
  }

  /** The request at `p` is the next one after those before it. */
  lemma {:induction false} PostsPrefix(trace: seq<Event>, p: nat)
    requires p < |trace| && trace[p].PostSent?
    ensures |Posts(trace[..p + 1])| == |Posts(trace[..p])| + 1
    ensures |Posts(trace[..p])| < |Posts(trace)| && Posts(trace)[|Posts(trace[..p])|] == trace[p].post.key
  {
    assert trace[..p + 1][..p] == trace[..p];
    var n := |trace| - 1;
    if p < n {
      PostsPrefix(trace[..n], p);
      assert trace[..n][..p] == trace[..p];
    } else {
      assert trace[..n] == trace[..p];
    }
  }

  lemma {:induction false} PostsGrow(trace: seq<Event>, p: nat, q: nat)
    requires p <= q <= |trace|
    ensures |Posts(trace[..p])| <= |Posts(trace[..q])|
  {
    if p < q {
      PostsGrow(trace, p, q - 1);
      assert trace[..q][..q - 1] == trace[..q - 1];
    }
  }

  lemma TargetsDiffer()
    ensures forall i, j :: 0 <= i < j < 6 ==> Target(ORDER[i]) != Target(ORDER[j])
  {
  }

  lemma MorePassed(passed: set<Passed>, later: set<Passed>, checks: seq<Check>, bound: nat, at: nat)
    requires passed <= later && AllPassed(passed, checks, bound, at)
    ensures AllPassed(later, checks, bound, at)
  {
  }

  lemma OrderGivesCase(created: seq<Created>)
    requires InOrder(created)
    ensures forall i, j :: 0 <= i < j < |created| ==> created[i].logical != created[j].logical
    ensures forall i :: 0 < i < |created| ==> created[i].logical != GatewayNetworkPolicy
  {
    assert forall i, j :: 0 <= i < j < 6 ==> ORDER[i] != ORDER[j];
    assert ORDER[0] == GatewayNetworkPolicy;
  }

  lemma SameOrLonger(before: seq<Event>, trace: seq<Event>)
    requires before <= trace
    ensures trace == before || |trace| > |before|
  {
  }

  lemma StillSeenActive(few: seq<Sighting>, many: seq<Sighting>, c: Created, desired: Body, at: nat)
    requires few <= many && SeenActive(few, c, desired, at)
    ensures SeenActive(many, c, desired, at)
  {
    var s :| s in few && s.key == Target(c.logical) && s.at == at && s.found.Some?
             && s.found.value.uid == c.uid && Clean(s.found.value, desired.(tracking := Tracked));
    assert s in many;
  }
}
