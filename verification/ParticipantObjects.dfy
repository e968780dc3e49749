/** The six objects of the participant gateway, how one run creates them under its
    nonce, and how the nonce is taken off again. */
module ParticipantObjects {
  import opened Wrappers
  import opened ApiServer
  import opened FluxTracking

  datatype Logical = GatewayNetworkPolicy | WorkbenchNetworkPolicy | GatewayServiceAccount
                   | GatewayService | GatewayDeployment | GatewayIngress

  /** Isolation first, exposure last. */
  const ORDER: seq<Logical> := [GatewayNetworkPolicy, WorkbenchNetworkPolicy, GatewayServiceAccount,
                                GatewayService, GatewayDeployment, GatewayIngress]

  const GATEWAY_NAME := "roebel-staging-participant-gateway"

  function Target(l: Logical): Key {
    match l
    case GatewayNetworkPolicy => Key(NetworkPolicyKind, GATEWAY_NAMESPACE, GATEWAY_NAME)
    case WorkbenchNetworkPolicy =>
      Key(NetworkPolicyKind, WORKBENCH_NAMESPACE, "roebel-staging-participant-workbench-ingress")
    case GatewayServiceAccount => Key(ServiceAccountKind, GATEWAY_NAMESPACE, GATEWAY_NAME)
    case GatewayService => Key(ServiceKind, GATEWAY_NAMESPACE, GATEWAY_NAME)
    case GatewayDeployment => Key(DeploymentKind, GATEWAY_NAMESPACE, GATEWAY_NAME)
    case GatewayIngress => Key(IngressKind, GATEWAY_NAMESPACE, GATEWAY_NAME)
  }

  /** The desired body of each object. */
  type Render = Logical -> Body

  /** An object that this run has bound as its own. */
  datatype Created = Created(logical: Logical, uid: nat, version: nat, nonceRemoved: bool)

  datatype Record = AlreadyAbsent(logical: Logical)
                  | Deleted(logical: Logical, uid: nat, version: nat, foreground: bool)

  datatype Report = Report(complete: bool, entryBound: bool, bothSuspended: bool, checks: nat,
                           deleted: seq<Record>, uncertain: Option<Logical>)

  datatype Receipt = Activated(created: seq<Created>) | Failed(rollback: Report, created: seq<Created>)

  type World = Cluster<Receipt>

  /** The object was made by our own create request, and is no older than we think. */
  ghost predicate Owned(world: World, nonce: nat, c: Created)
    reads world
  {
    && c.uid in world.made && c.uid < world.nextUid
    && world.made[c.uid].key == Target(c.logical) && world.made[c.uid].nonce == nonce
    && (Target(c.logical) in world.objects && world.objects[Target(c.logical)].uid == c.uid ==>
          c.version <= world.objects[Target(c.logical)].version)
  }

  /** The object does not carry a nonce any more. */
  ghost predicate Bare(world: World, c: Created)
    reads world
  {
    Target(c.logical) in world.objects && world.objects[Target(c.logical)].uid == c.uid ==>
      !world.objects[Target(c.logical)].mark.Ours?
  }

  twostate lemma AllStay(world: World, new nonce: nat, new created: seq<Created>)
    requires old(world.Valid()) && world.Grew() && forall c <- created :: old(Owned(world, nonce, c))
    ensures forall c <- created :: Owned(world, nonce, c)
    ensures forall c <- created :: old(Bare(world, c)) ==> Bare(world, c)
  {
  }

  /** Equal to the desired object, with the nonce or without it. */
  predicate Marked(o: Obj, desired: Body, nonce: nat) {
    o.mark == Ours(nonce) && o.body == desired
  }

  predicate Clean(o: Obj, desired: Body) {
    o.mark.Unmarked? && o.body == desired
  }

  /** After `at` requests an answer showed this very object clean. */
  ghost predicate SeenClean(sightings: seq<Sighting>, c: Created, desired: Body, at: nat) {
    exists s <- sightings ::
      && s.key == Target(c.logical) && s.at == at && s.found.Some?
      && s.found.value.uid == c.uid && Clean(s.found.value, desired)
  }

  /** No receipt was written and no create was sent: what is in flight can only land. */
  twostate predicate NoCreate(world: World)
    reads world
  {
    && world.ledger == old(world.ledger) && old(world.sightings) <= world.sightings
    && world.inflight <= old(world.inflight) && world.replies == old(world.replies)
  }

  ghost predicate NoneInFlight(inflight: set<Post>, key: Key, nonce: nat) {
    forall p <- inflight :: p.key == key ==> p.nonce != nonce
  }

  lemma OnceIsNotTwice(trace: seq<Event>, post: Post)
    requires SentOnce(trace, post.key, post.nonce)
    ensures !SentTwice(trace, post)
  {
    assert forall i :: 0 <= i < |trace| && trace[i] == PostSent(post) ==> IsPost(trace[i], post.key, post.nonce);
  }

  lemma OnceIsOne(trace: seq<Event>, post: Post, other: Post)
    requires SentOnce(trace, post.key, post.nonce) && PostSent(post) in trace && PostSent(other) in trace
    ensures other.key == post.key && other.nonce == post.nonce ==> other == post
  {
    var i :| 0 <= i < |trace| && trace[i] == PostSent(post);
    var j :| 0 <= j < |trace| && trace[j] == PostSent(other);
    assert IsPost(trace[i], post.key, post.nonce);
    assert other.key == post.key && other.nonce == post.nonce ==> IsPost(trace[j], post.key, post.nonce);
  }

  /** Whatever a single create has made is not on its way any more. */
  lemma OwnedHasLanded(world: World, nonce: nat, c: Created)
    requires world.Valid() && Owned(world, nonce, c) && SentOnce(world.trace, Target(c.logical), nonce)
    ensures NoneInFlight(world.inflight, Target(c.logical), nonce)
  {
    var landed := world.made[c.uid];
    OnceIsNotTwice(world.trace, landed);
    assert landed !in world.inflight;
    forall p | p in world.inflight && p.key == Target(c.logical)
      ensures p.nonce != nonce
    {
      OnceIsOne(world.trace, landed, p);
    }
  }

  // ------------------------------------------------------------------ create

  /** How a create ends. `Interrupted` is an exception out of the request itself. */
  datatype Outcome = Bound(item: Created) | Conflict | Unresolved | Interrupted | Dead

  /** `bind_create_result` */
  function BindCreateResult(l: Logical, o: Obj, desired: Body, nonce: nat): Option<Created> {
    if Marked(o, desired, nonce) then Some(Created(l, o.uid, o.version, false)) else None
  }

  /** `create_v4`: one request, never repeated. An answer that does not bind is looked
      up; only an object with our nonce and exactly the desired semantics is ours. After a
      definite conflict nothing is on its way, if nothing was before. */
  method CreateTarget(world: World, l: Logical, desired: Body, nonce: nat) returns (outcome: Outcome)
    requires world.Valid() && nonce < world.nextNonce
    modifies world
    ensures world.Grew() && world.ledger == old(world.ledger) && old(world.sightings) <= world.sightings
    ensures world.trace == old(world.trace) + [PostSent(Post(Target(l), nonce, desired))]
    ensures outcome.Bound? ==> outcome.item.logical == l && !outcome.item.nonceRemoved
                               && Owned(world, nonce, outcome.item)
    ensures world.inflight <= old(world.inflight) + {Post(Target(l), nonce, desired)}
    ensures world.replies.Keys == old(world.replies).Keys + {|old(world.trace)|}
    ensures forall n <- old(world.replies) :: n != |old(world.trace)| ==> world.replies[n] == old(world.replies)[n]
    ensures outcome.Conflict? <==> world.replies[|old(world.trace)|].AlreadyExists?
    ensures outcome.Interrupted? <==> world.replies[|old(world.trace)|].Thrown?
    ensures PostSent(Post(Target(l), nonce, desired)) !in old(world.trace) && outcome.Conflict? ==>
              Post(Target(l), nonce, desired) !in world.inflight
  {
    var reply := world.Create(Post(Target(l), nonce, desired));
    match reply {
      case Gone => return Dead;
      case AlreadyExists => return Conflict;
      case Thrown => return Interrupted;
      case NoReply =>
      case Admitted(o) =>
        var readable: bool := *;
        var item := BindCreateResult(l, o, desired, nonce);
        if readable && item.Some? {
          return Bound(item.value);
        }
    }
    outcome := Discover(world, l, desired, nonce);
  }

  method Discover(world: World, l: Logical, desired: Body, nonce: nat) returns (outcome: Outcome)
    requires world.Valid()
    modifies world
    ensures world.Grew() && NoCreate(world)
    ensures world.trace == old(world.trace) && (outcome.Bound? || outcome.Unresolved? || outcome.Dead?)
    ensures outcome.Bound? ==> outcome.item.logical == l && !outcome.item.nonceRemoved
                               && Owned(world, nonce, outcome.item)
  {
    var found := world.Get(Target(l));
    if found == Err(Died) {
      return Dead;
    } else if found.Err? || found.value.None? {
      return Unresolved;
    }
    var item := BindCreateResult(l, found.value.value, desired, nonce);
    outcome := if item.Some? then Bound(item.value) else Unresolved;
  }

  /** `rediscover_uncertain_create_v4`: look for an unresolved create until the time is
      up. Something else under the name is an error, and is left alone. `looks` are the
      times at which the looks began, all before the time was up. */
  method Rediscover(world: World, l: Logical, desired: Body, nonce: nat, patience: nat)
    returns (r: Result<Option<Created>>, ghost start: nat, ghost looks: seq<nat>)
    requires world.Valid()
    modifies world
    ensures world.Grew() && NoCreate(world) && world.trace == old(world.trace)
    ensures r.Ok? && r.value.Some? ==> r.value.value.logical == l && !r.value.value.nonceRemoved
                                       && Owned(world, nonce, r.value.value)
    ensures |looks| == |world.sightings| - |old(world.sightings)| + world.unanswered - old(world.unanswered)
    ensures forall i :: 0 <= i < |looks| ==> start <= looks[i] < start + patience
    ensures forall i :: 0 < i < |looks| ==> looks[i - 1] + 250 <= looks[i]
  {
    var clock: nat :| clock >= 0;
    var deadline := clock + patience;
    start, looks := clock, [];
    while clock < deadline
      invariant world.Grew() && NoCreate(world) && world.trace == old(world.trace)
      invariant |looks| == |world.sightings| - |old(world.sightings)| + world.unanswered - old(world.unanswered)
      invariant start <= clock && deadline == start + patience
      invariant forall i :: 0 <= i < |looks| ==> start <= looks[i] < deadline && looks[i] + 250 <= clock
      invariant forall i :: 0 < i < |looks| ==> looks[i - 1] + 250 <= looks[i]
      decreases deadline as int - clock
    {
      hide Owned, Persisted, Cluster.Valid;
      looks := looks + [clock];
      var found := world.Get(Target(l));
      if found == Err(Died) {
        r := Err(Died);
        return;
      }
      if found.Ok? && found.value.Some? {
        var item := BindCreateResult(l, found.value.value, desired, nonce);
        r := if item.Some? then Ok(item) else Err(Raised);
        return;
      }
      var passed: nat :| passed >= 0;
      clock := clock + passed + 250;
    }
    r := Ok(None);
  }

  // ------------------------------------------------------------ nonce removal

  /** Read an object that must be there. */
  method Live(world: World, key: Key) returns (r: Result<Obj>)
    requires world.Valid()
    modifies world
    ensures world.Grew() && NoCreate(world) && world.trace == old(world.trace) && world.applied == old(world.applied)
    ensures if world.unanswered == old(world.unanswered) then r.Err? ==> key !in world.objects
            else r.Err? && world.unanswered == old(world.unanswered) + 1
    ensures OnlyOthers(old(world.objects), world.objects, world.foreign, |old(world.foreign)|, None)
    ensures r.Ok? ==> key in world.objects && world.objects[key] == r.value
    ensures r.Ok? ==> Sighting(key, Some(r.value), |world.trace|) in world.sightings
  {
    var found :- world.Get(key);
    assert world.sightings[|old(world.sightings)|] == Sighting(key, found, |world.trace|);
    r := if found.Some? then Ok(found.value) else Err(Raised);
  }

  /** The request events of a nonce removal: our own nonce, off our own object. */
  ghost predicate OnlyStrips(before: seq<Event>, after: seq<Event>, most: nat, c: Created, nonce: nat) {
    && before <= after && |after| <= |before| + most
    && forall p :: |before| <= p < |after| ==> after[p] == PatchSent(Target(c.logical), c.uid, DropNonce(nonce))
  }

  /** The last look at an object whose nonce was to be removed. */
  predicate Stripped(objects: map<Key, Obj>, c: Created, desired: Body)
  {
    && Target(c.logical) in objects && objects[Target(c.logical)].uid == c.uid
    && Clean(objects[Target(c.logical)], desired)
  }

  /** What a look at the object tells the removal: done, carry on, or stop. */
  function Judge(o: Obj, c: Created, desired: Body, nonce: nat, attempted: bool): (r: Result<bool>)
    ensures r == Ok(true) ==> o.uid == c.uid && Clean(o, desired) && attempted
    ensures r == Ok(false) ==> o.uid == c.uid && Marked(o, desired, nonce)
  {
    var _ :- Require(o.uid == c.uid);
    if o.mark.Unmarked? then
      var _ :- Require(attempted && o.body == desired);
      Ok(true)
    else
      var _ :- Require(Marked(o, desired, nonce));
      Ok(false)
  }

  /** Of each patch since request number `from` that took effect: the object is still
      clean, or somebody else has touched it after that. */
  ghost predicate Noticed(world: World, from: nat, c: Created, desired: Body)
    reads world
  {
    Stripped(world.objects, c, desired) || AllTouched(world, from, c)
  }

  /** After each of the patches that took effect, somebody else has touched the object. */
  ghost predicate AllTouched(world: World, from: nat, c: Created)
    reads world
  {
    forall p <- world.applied :: from <= p ==> Touched(world.foreign, world.applied[p], Target(c.logical))
  }

  twostate lemma StillNoticed(world: World, new from: nat, new c: Created, new desired: Body)
    requires old(world.Valid()) && old(world.foreign) <= world.foreign && world.applied == old(world.applied)
    requires OnlyOthers(old(world.objects), world.objects, world.foreign, |old(world.foreign)|, None)
    requires old(Noticed(world, from, c, desired))
    ensures Noticed(world, from, c, desired)
  {
    var key := Target(c.logical);
    assert SameAt(old(world.objects), world.objects, key) || Touched(world.foreign, |old(world.foreign)|, key);
    forall p | p in world.applied && from <= p && !Stripped(world.objects, c, desired)
      ensures Touched(world.foreign, world.applied[p], key)
    {
      StillTouched(old(world.foreign), world.foreign, world.applied[p], world.applied[p], key);
      StillTouched(world.foreign, world.foreign, world.applied[p], |old(world.foreign)|, key);
    }
  }

  lemma OneMoreStrip(before: seq<Event>, middle: seq<Event>, after: seq<Event>, most: nat, c: Created, nonce: nat)
    requires middle == before || OnlyStrips(before, middle, most, c, nonce)
    requires after == middle || after == middle + [PatchSent(Target(c.logical), c.uid, DropNonce(nonce))]
    ensures OnlyStrips(before, after, if after == middle then most else most + 1, c, nonce)
    ensures most < 4 ==> OnlyStrips(before, after, 4, c, nonce)
  {
  }

  /** How one look, with the patch that may follow it, ends. */
  datatype Step = Done(version: nat) | Again | Broken(fault: Fault)

  /** One guarded patch on the object just read, and what its answer says. If it takes
      effect, the object is clean. Only an exception out of the request stops it. */
  method StripOnce(world: World, c: Created, desired: Body, nonce: nat, current: Obj) returns (step: Step)
    requires world.Valid() && Owned(world, nonce, c)
    requires Target(c.logical) in world.objects && world.objects[Target(c.logical)] == current
    requires current.uid == c.uid && Marked(current, desired, nonce)
    modifies world
    ensures world.Grew() && Owned(world, nonce, c) && NoCreate(world)
    ensures world.trace == old(world.trace) + [PatchSent(Target(c.logical), c.uid, DropNonce(nonce))]
    ensures |old(world.trace)| in world.applied ==> Stripped(world.objects, c, desired)
    ensures forall p <- world.applied :: p == |old(world.trace)| || (p in old(world.applied) && world.applied[p] == old(world.applied[p]))
    ensures step.Done? ==> Stripped(world.objects, c, desired)
                           && Owned(world, nonce, c.(version := step.version, nonceRemoved := true))
                           && SeenClean(world.sightings, c, desired, |world.trace|)
    ensures world.unanswered == old(world.unanswered) + if step.Broken? then 1 else 0
  {
    var response, thrown := world.Patch(Target(c.logical), c.uid, current.version, DropNonce(nonce));
    if thrown {
      return Broken(response.fault);
    } else if response.Err? {
      return Again;
    }
    var after := response.value;
    assert world.sightings[|old(world.sightings)|] == Sighting(Target(c.logical), Some(after), |world.trace|);
    var readable: bool := *;
    if readable && (after.uid != c.uid || !Clean(after, desired)) {
      return Broken(Raised);
    }
    step := if readable then Done(after.version) else Again;
  }

  /** One look at the object, and the patch if the nonce is still there. When it ends
      without success or another attempt, an answer did not come, or somebody else has
      touched the object after each patch that took effect. */
  method Attempt(world: World, c: Created, desired: Body, nonce: nat, ghost from: nat, attempted: bool, last: bool) returns (step: Step)
    requires world.Valid() && Owned(world, nonce, c)
    requires from <= |world.trace| && (!attempted ==> from == |world.trace|) && Noticed(world, from, c, desired)
    modifies world
    ensures world.Grew() && Owned(world, nonce, c) && NoCreate(world)
    ensures world.trace == old(world.trace) ||
            (world.trace == old(world.trace) + [PatchSent(Target(c.logical), c.uid, DropNonce(nonce))] && !last)
    ensures step.Again? ==> world.trace != old(world.trace) && Noticed(world, from, c, desired)
    ensures step.Done? ==> Stripped(world.objects, c, desired)
                           && Owned(world, nonce, c.(version := step.version, nonceRemoved := true))
                           && SeenClean(world.sightings, c, desired, |world.trace|)
                           && (attempted || world.trace != old(world.trace))
    ensures world.unanswered == old(world.unanswered) || (step.Broken? && world.unanswered == old(world.unanswered) + 1)
    ensures step.Broken? && world.unanswered == old(world.unanswered) ==> AllTouched(world, from, c)
  {
    var look := Live(world, Target(c.logical));
    StillNoticed(world, from, c, desired);
    hide Cluster.Valid, Touched, Taken;
    if look.Err? {
      return Broken(look.fault);
    }
    var current := look.value;
    var verdict := Judge(current, c, desired, nonce, attempted);
    if verdict.Err? || (last && !verdict.value) {
      return Broken(Raised);
    } else if verdict.value {
      return Done(current.version);
    }
    label looked:
    step := StripOnce(world, c, desired, nonce, current);
    Counted@looked(world, from, c, desired);
  }

  /** A patch was sent on a marked object. */
  twostate lemma Counted(world: World, new from: nat, new c: Created, new desired: Body)
    requires old(world.Valid()) && old(world.foreign) <= world.foreign
    requires old(AllTouched(world, from, c))
    requires forall p <- world.applied :: p == |old(world.trace)| || (p in old(world.applied) && world.applied[p] == old(world.applied[p]))
    requires |old(world.trace)| in world.applied ==> Stripped(world.objects, c, desired)
    ensures Noticed(world, from, c, desired)
  {
    forall p | p in world.applied && from <= p && p in old(world.applied)
      ensures Touched(world.foreign, old(world.applied)[p], Target(c.logical))
    {
      StillTouched(old(world.foreign), world.foreign, old(world.applied)[p], old(world.applied)[p], Target(c.logical));
    }
  }

  /** Up to four guarded patches, each after a look. */
  method AttemptFourTimes(world: World, c: Created, desired: Body, nonce: nat) returns (step: Step)
    requires world.Valid() && Owned(world, nonce, c) && Noticed(world, |world.trace|, c, desired)
    modifies world
    ensures world.Grew() && Owned(world, nonce, c) && NoCreate(world)
    ensures OnlyStrips(old(world.trace), world.trace, 4, c, nonce)
    ensures step.Again? ==> |world.trace| > |old(world.trace)| && Noticed(world, |old(world.trace)|, c, desired)
    ensures step.Done? ==> Stripped(world.objects, c, desired) && |world.trace| > |old(world.trace)|
                           && Owned(world, nonce, c.(version := step.version, nonceRemoved := true))
                           && SeenClean(world.sightings, c, desired, |world.trace|)
    ensures world.unanswered == old(world.unanswered) || (step.Broken? && world.unanswered == old(world.unanswered) + 1)
    ensures step.Broken? && world.unanswered == old(world.unanswered) ==> AllTouched(world, |old(world.trace)|, c)
  {
    hide Cluster.Valid, Owned, Stripped, OnlyStrips, Target, Noticed, AllTouched, SeenClean;
    OneMoreStrip(world.trace, world.trace, world.trace, 0, c, nonce);
    step := Again;
    for attempt := 0 to 4
      invariant step.Again? && world.Grew() && Owned(world, nonce, c) && NoCreate(world)
      invariant OnlyStrips(old(world.trace), world.trace, attempt, c, nonce) && world.unanswered == old(world.unanswered)
      invariant |world.trace| == |old(world.trace)| + attempt
      invariant Noticed(world, |old(world.trace)|, c, desired)
    {
      ghost var sent := world.trace;
      step := Attempt(world, c, desired, nonce, |old(world.trace)|, attempt > 0, false);
      OneMoreStrip(old(world.trace), sent, world.trace, attempt, c, nonce);
      if !step.Again? {
        return;
      }
    }
  }

  /** `remove_operation_nonce_v4`: up to four guarded patches, each after a look, and a
      last look. The nonce must still be there before the first patch.

      If one of the patches took effect, even with its answer lost, and every read was
      answered and no exception came out of a patch, the removal fails only when somebody
      else touched this very object after that patch. */
  method RemoveNonce(world: World, c: Created, desired: Body, nonce: nat) returns (r: Result<Created>)
    requires world.Valid() && Owned(world, nonce, c)
    modifies world
    ensures world.Grew() && NoCreate(world)
    ensures OnlyStrips(old(world.trace), world.trace, 4, c, nonce)
    ensures r.Ok? ==> r.value == c.(version := r.value.version, nonceRemoved := true) && Owned(world, nonce, r.value)
                      && Stripped(world.objects, c, desired) && |world.trace| > |old(world.trace)|
                      && SeenClean(world.sightings, c, desired, |world.trace|)
    ensures world.unanswered == old(world.unanswered) || (r.Err? && world.unanswered == old(world.unanswered) + 1)
    ensures r.Err? && world.unanswered == old(world.unanswered) ==> AllTouched(world, |old(world.trace)|, c)
  {
    NothingApplied(world, c);
    hide Cluster.Valid, Owned, Stripped, OnlyStrips, Target, Noticed, AllTouched, SeenClean;
    var step := AttemptFourTimes(world, c, desired, nonce);
    if step.Again? {
      step := Attempt(world, c, desired, nonce, |old(world.trace)|, true, true);
    }
    r := if step.Done? then Ok(c.(version := step.version, nonceRemoved := true)) else Err(step.fault);
  }

  lemma NothingApplied(world: World, c: Created)
    requires world.Valid()
    ensures AllTouched(world, |world.trace|, c) && forall desired :: Noticed(world, |world.trace|, c, desired)
  {
  }
}
